/**
  What the struct tags of `Result` promise about its JSON form: which keys
  are written for a record, and that decoding what was written gives the
  record back.
*/
module ResultKeys {
  import opened Wrappers
  import opened Values
  import opened ResultJson

  /** No two fields share a JSON key (`Task` is `task_name`, `Repo` is `backup_repository`, ...). */
  lemma TagKeysDistinct()
    ensures DistinctKeys(Tags)
  {
    forall i, j | 0 <= i < j < |Tags|
      ensures Tags[i].key != Tags[j].key
    {
      CandidateFieldOfTag(i);
      CandidateFieldOfTag(j);
    }
  }

  /** `timestamp` and `event_type` carry no omitempty: both are always written, first. */
  lemma MandatoryKeysAlwaysEmitted(r: Result)
    ensures "timestamp" in EmittedKeys(r) && "event_type" in EmittedKeys(r)
    ensures |KeysOf(Marshal(r))| >= 2
    ensures KeysOf(Marshal(r))[..2] == ["timestamp", "event_type"]
  {
    KeyEmittedIff(r, 0);
    KeyEmittedIff(r, 1);
    EncodeLeadingMandatory(Tags, FieldValues(r));
  }

  /**
    Every other field carries omitempty: it is left out exactly when it holds
    its zero value. Spelled out per kind of field: a bool is written iff true,
    a string iff not "", a number iff not 0, a slice or a map iff not empty.
  */
  lemma OptionalFieldsOmittedWhenZero(r: Result)
    ensures forall j :: 2 <= j < |Tags| ==> Tags[j].omitEmpty
    ensures forall j :: 2 <= j < |Tags| ==>
              (Tags[j].key in EmittedKeys(r) <==> !IsEmptyValue(FieldValues(r)[j]))
    ensures forall j :: 2 <= j < |Tags| && FieldValues(r)[j].JBool? ==>
              (Tags[j].key in EmittedKeys(r) <==> FieldValues(r)[j].b)
    ensures forall j :: 2 <= j < |Tags| && FieldValues(r)[j].JString? ==>
              (Tags[j].key in EmittedKeys(r) <==> FieldValues(r)[j].str != "")
    ensures forall j :: 2 <= j < |Tags| && FieldValues(r)[j].JNumber? ==>
              (Tags[j].key in EmittedKeys(r) <==> FieldValues(r)[j].n != 0)
    ensures forall j :: 2 <= j < |Tags| && FieldValues(r)[j].JStringArray? ==>
              (Tags[j].key in EmittedKeys(r) <==> |FieldValues(r)[j].items| > 0)
    ensures forall j :: 2 <= j < |Tags| && FieldValues(r)[j].JStringObject? ==>
              (Tags[j].key in EmittedKeys(r) <==> |FieldValues(r)[j].entries| > 0)
  {
    forall j | 2 <= j < |Tags|
      ensures Tags[j].omitEmpty
      ensures Tags[j].key in EmittedKeys(r) <==> !IsEmptyValue(FieldValues(r)[j])
    {
      KeyEmittedIff(r, j);
    }
  }

  /** `json.Marshal` writes each emitted key once, and no other key. */
  lemma MarshalWritesEmittedKeys(r: Result)
    ensures NoDuplicates(KeysOf(Marshal(r)))
    ensures forall k :: k in KeysOf(Marshal(r)) <==> k in EmittedKeys(r)
  {
    TagKeysDistinct();
    EncodeNoDuplicates(Tags, FieldValues(r));
    forall k
      ensures k in KeysOf(Marshal(r)) <==> k in EmittedKeys(r)
    {
      KeyPresentIffFound(Marshal(r), k);
      if k in KeysOf(Marshal(r)) {
        EncodeKeysAreTagKeys(Tags, FieldValues(r), k);
        var m :| 0 <= m < |Tags| && k == Tags[m].key;
        LookupEncode(Tags, FieldValues(r), m);
        KeyEmittedIff(r, m);
      }
      if k in EmittedKeys(r) {
        var m :| 0 <= m < |Tags| && Written(Tags[m], FieldValues(r)[m]) && k == Tags[m].key;
        LookupEncode(Tags, FieldValues(r), m);
      }
    }
  }

  /** Each field read back from `Marshal(r)` decodes, by its own kind, to that field of `r`. */
  lemma FieldRoundTrip(r: Result, j: nat)
    requires j < |Tags|
    ensures DecodesTo(Found(Marshal(r), j), FieldValue(r, j))
  {
    TagKeysDistinct();
    LookupEncode(Tags, FieldValues(r), j);
  }

  /** `DecodeFields` gives back `r` from any field values each of which decodes to that field of `r`. */
  lemma DecodeFieldsOf(fs: seq<Option<Json>>, r: Result)
    requires |fs| == |Tags|
    requires forall j :: 0 <= j < |Tags| ==> DecodesTo(fs[j], FieldValue(r, j))
    ensures DecodeFields(fs) == Some(r)
  {
  }

  /** Decoding what `Marshal` wrote gives back the same record. */
  lemma RoundTrip(r: Result)
    ensures Unmarshal(Marshal(r)) == Some(r)
  {
    var fs := FoundValues(Marshal(r));
    forall j | 0 <= j < |Tags|
      ensures DecodesTo(fs[j], FieldValue(r, j))
    {
      FieldRoundTrip(r, j);
    }
    DecodeFieldsOf(fs, r);
  }
}
