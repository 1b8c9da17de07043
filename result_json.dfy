/**
  The JSON form of an event record. In Go the form is fixed by the struct
  tags of `Result`: each field has a key, and every field but the first two
  carries `omitempty`, so it is left out when it holds its type's zero value.
  Marshalling emits the members in field declaration order; `Unmarshal`
  is the decoding direction, used here as the partner of `Marshal`.
*/
module ResultJson {
  import opened Wrappers
  import opened Values

  /** The JSON values that the fields of a Result marshal to. */
  datatype Json =
    | JString(str: string)
    | JBool(b: bool)
    | JNumber(n: int)
    | JStringArray(items: seq<string>)
    | JStringObject(entries: map<string, string>)

  /** One `json:"..."` struct tag: the key and whether `omitempty` is given. */
  datatype Tag = Tag(key: string, omitEmpty: bool)

  /** The struct tags of Result, one per field, in declaration order. */
  const Tags: seq<Tag> := [
    Tag("timestamp", false),
    Tag("event_type", false),
    Tag("successful", true),
    Tag("bucket", true),
    Tag("bucket_type", true),
    Tag("node", true),
    Tag("service", true),
    Tag("dataset", true),
    Tag("index", true),
    Tag("function", true),
    Tag("task_name", true),
    Tag("group", true),
    Tag("groups", true),
    Tag("source_bucket", true),
    Tag("target_bucket", true),
    Tag("cluster", true),
    Tag("dropped_ticks", true),
    Tag("reason", true),
    Tag("nodes_in", true),
    Tag("nodes_out", true),
    Tag("backup_repository", true),
    Tag("backup_name", true),
    Tag("user", true),
    Tag("percent_data_lost", true),
    Tag("plan", true),
    Tag("old_repository", true),
    Tag("new_repository", true),
    Tag("operation_id", true),
    Tag("settings", true)
  ]

  /** The JSON value of the i-th field of `r`, the field that `Tags[i]` is attached to. */
  function FieldValue(r: Result, i: nat): Json
    requires i < |Tags|
  {
    match i
    case 0 => JNumber(r.time)
    case 1 => JString(r.event)
    case 2 => JBool(r.successful)
    case 3 => JString(r.bucket)
    case 4 => JString(r.bucketType)
    case 5 => JString(r.node)
    case 6 => JString(r.service)
    case 7 => JString(r.dataset)
    case 8 => JString(r.index)
    case 9 => JString(r.functionName)
    case 10 => JString(r.task)
    case 11 => JString(r.group)
    case 12 => JStringArray(r.groups)
    case 13 => JString(r.sourceBucket)
    case 14 => JString(r.targetBucket)
    case 15 => JString(r.cluster)
    case 16 => JNumber(r.ticks)
    case 17 => JString(r.reason)
    case 18 => JStringArray(r.nodesIn)
    case 19 => JStringArray(r.nodesOut)
    case 20 => JString(r.repo)
    case 21 => JString(r.backup)
    case 22 => JString(r.user)
    case 23 => JNumber(r.dataLost)
    case 24 => JString(r.plan)
    case 25 => JString(r.oldRepository)
    case 26 => JString(r.newRepository)
    case 27 => JString(r.operationId)
    case _ => JStringObject(r.settings)
  }

  /** The JSON values of the fields of `r`, in declaration order. */
  function FieldValues(r: Result): (vs: seq<Json>)
    ensures |vs| == |Tags|
  {
    seq(|Tags|, i requires 0 <= i < |Tags| => FieldValue(r, i))
  }

  /** encoding/json's notion of an empty value: false, 0, "", and a slice or map of length 0. */
  predicate IsEmptyValue(v: Json) {
    match v
    case JString(s) => s == ""
    case JBool(b) => !b
    case JNumber(n) => n == 0
    case JStringArray(items) => |items| == 0
    case JStringObject(entries) => |entries| == 0
  }

  /** Whether a field with tag `t` and value `v` is written. */
  predicate Written(t: Tag, v: Json) {
    !t.omitEmpty || !IsEmptyValue(v)
  }

  /** A member of a JSON object: a key and its value. */
  type Member = (string, Json)

  /** The members written for fields with the given tags and values, in order. */
  function Encode(tags: seq<Tag>, vals: seq<Json>): seq<Member>
    requires |tags| == |vals|
  {
    if tags == [] then []
    else (if Written(tags[0], vals[0]) then [(tags[0].key, vals[0])] else []) + Encode(tags[1..], vals[1..])
  }

  /** The JSON object that `json.Marshal` writes for `r`, as its ordered members. */
  function Marshal(r: Result): seq<Member> {
    Encode(Tags, FieldValues(r))
  }

  /** The keys of an object, in order. */
  function KeysOf(ms: seq<Member>): seq<string> {
    if ms == [] then [] else [ms[0].0] + KeysOf(ms[1..])
  }

  /** The set of keys written for `r`: those of its fields that are written. */
  function EmittedKeys(r: Result): set<string> {
    set i | 0 <= i < |Tags| && Written(Tags[i], FieldValues(r)[i]) :: Tags[i].key
  }

  /** The value the decoder takes for key `k`: when a key is repeated, the last one wins. */
  function Lookup(ms: seq<Member>, k: string): Option<Json> {
    if ms == [] then None
    else if ms[|ms| - 1].0 == k then Some(ms[|ms| - 1].1)
    else Lookup(ms[..|ms| - 1], k)
  }

  // Decoding one field: a missing key leaves the Go zero value; a value of
  // the wrong JSON type is a decoding error.

  function AsString(v: Option<Json>): Option<string> {
    match v
    case None => Some("")
    case Some(JString(s)) => Some(s)
    case Some(_) => None
  }

  function AsBool(v: Option<Json>): Option<bool> {
    match v
    case None => Some(false)
    case Some(JBool(b)) => Some(b)
    case Some(_) => None
  }

  function AsNumber(v: Option<Json>): Option<int> {
    match v
    case None => Some(0)
    case Some(JNumber(n)) => Some(n)
    case Some(_) => None
  }

  function AsStrings(v: Option<Json>): Option<seq<string>> {
    match v
    case None => Some([])
    case Some(JStringArray(items)) => Some(items)
    case Some(_) => None
  }

  function AsStringMap(v: Option<Json>): Option<map<string, string>> {
    match v
    case None => Some(map[])
    case Some(JStringObject(entries)) => Some(entries)
    case Some(_) => None
  }

  /** Whether decoding `o` as the kind of `v` gives `v`'s payload. */
  predicate DecodesTo(o: Option<Json>, v: Json) {
    match v
    case JString(s) => AsString(o) == Some(s)
    case JBool(b) => AsBool(o) == Some(b)
    case JNumber(n) => AsNumber(o) == Some(n)
    case JStringArray(items) => AsStrings(o) == Some(items)
    case JStringObject(entries) => AsStringMap(o) == Some(entries)
  }

  /** The value the decoder takes for the i-th field. */
  function Found(ms: seq<Member>, i: nat): Option<Json>
    requires i < |Tags|
  {
    Lookup(ms, Tags[i].key)
  }

  /** The value the decoder takes for each field, in field order. */
  function FoundValues(ms: seq<Member>): (fs: seq<Option<Json>>)
    ensures |fs| == |Tags|
  {
    seq(|Tags|, i requires 0 <= i < |Tags| => Found(ms, i))
  }

  /** What `json.Unmarshal` makes of an object: keys without a field are ignored. */
  function Unmarshal(ms: seq<Member>): Option<Result> {
    DecodeFields(FoundValues(ms))
  }

  /** Decodes each field's value by the field's kind; a value of the wrong kind fails the whole decode. */
  function DecodeFields(fs: seq<Option<Json>>): Option<Result>
    requires |fs| == |Tags|
  {
    var time :- AsNumber(fs[0]);
    var event :- AsString(fs[1]);
    var successful :- AsBool(fs[2]);
    var bucket :- AsString(fs[3]);
    var bucketType :- AsString(fs[4]);
    var node :- AsString(fs[5]);
    var service :- AsString(fs[6]);
    var dataset :- AsString(fs[7]);
    var index :- AsString(fs[8]);
    var functionName :- AsString(fs[9]);
    var task :- AsString(fs[10]);
    var group :- AsString(fs[11]);
    var groups :- AsStrings(fs[12]);
    var sourceBucket :- AsString(fs[13]);
    var targetBucket :- AsString(fs[14]);
    var cluster :- AsString(fs[15]);
    var ticks :- AsNumber(fs[16]);
    var reason :- AsString(fs[17]);
    var nodesIn :- AsStrings(fs[18]);
    var nodesOut :- AsStrings(fs[19]);
    var repo :- AsString(fs[20]);
    var backup :- AsString(fs[21]);
    var user :- AsString(fs[22]);
    var dataLost :- AsNumber(fs[23]);
    var plan :- AsString(fs[24]);
    var oldRepository :- AsString(fs[25]);
    var newRepository :- AsString(fs[26]);
    var operationId :- AsString(fs[27]);
    var settings :- AsStringMap(fs[28]);
    Some(Result(time, event, successful, bucket, bucketType, node, service, dataset, index,
                functionName, task, group, groups, sourceBucket, targetBucket, cluster, ticks,
                reason, nodesIn, nodesOut, repo, backup, user, dataLost, plan, oldRepository,
                newRepository, operationId, settings))
  }

  /**
    The only field whose key `k` can be: the keys of any two fields already
    differ in their length or first two characters. -1 when there is none.
    A proof device: it exists so that `TagKeysDistinct` needs one lookup per
    field instead of comparing all pairs of keys.
  */
  function CandidateField(k: string): int {
    if |k| < 2 then -1
    else if |k| == 4 then if k[0] == 'n' then 5 else if k[0] == 'u' then 22 else if k[0] == 'p' then 24 else -1
    else if |k| == 5 then if k[0] == 'i' then 8 else if k[0] == 'g' then 11 else -1
    else if |k| == 6 then if k[0] == 'b' then 3 else if k[0] == 'g' then 12 else if k[0] == 'r' then 17 else -1
    else if |k| == 7 then if k[0] == 's' then 6 else if k[0] == 'd' then 7 else if k[0] == 'c' then 15 else -1
    else if |k| == 8 then if k[0] == 'f' then 9 else if k[0] == 'n' then 18 else if k[0] == 's' then 28 else -1
    else if |k| == 9 then if k[0] == 't' then (if k[1] == 'i' then 0 else if k[1] == 'a' then 10 else -1) else if k[0] == 'n' then 19 else -1
    else if |k| == 10 then if k[0] == 'e' then 1 else if k[0] == 's' then 2 else -1
    else if |k| == 11 then if k[0] == 'b' then (if k[1] == 'u' then 4 else if k[1] == 'a' then 21 else -1) else -1
    else if |k| == 12 then if k[0] == 'o' then 27 else -1
    else if |k| == 13 then if k[0] == 's' then 13 else if k[0] == 't' then 14 else if k[0] == 'd' then 16 else -1
    else if |k| == 14 then if k[0] == 'o' then 25 else if k[0] == 'n' then 26 else -1
    else if |k| == 17 then if k[0] == 'b' then 20 else if k[0] == 'p' then 23 else -1
    else -1
  }

  lemma CandidateFieldOfTag(i: nat)
    requires i < |Tags|
    ensures CandidateField(Tags[i].key) == i
  {
    if i < 10 {
      CandidateFieldOfEarlyTag(i);
    } else if i < 20 {
      CandidateFieldOfMiddleTag(i);
    } else {
      CandidateFieldOfLateTag(i);
    }
  }

  lemma CandidateFieldOfEarlyTag(i: nat)
    requires i < 10
    ensures CandidateField(Tags[i].key) == i
  {
  }

  lemma CandidateFieldOfMiddleTag(i: nat)
    requires 10 <= i < 20
    ensures CandidateField(Tags[i].key) == i
  {
  }

  lemma CandidateFieldOfLateTag(i: nat)
    requires 20 <= i < |Tags|
    ensures CandidateField(Tags[i].key) == i
  {
  }

  predicate DistinctKeys(tags: seq<Tag>) {
    forall i, j :: 0 <= i < j < |tags| ==> tags[i].key != tags[j].key
  }

  predicate NoDuplicates(ks: seq<string>) {
    forall a, b :: 0 <= a < b < |ks| ==> ks[a] != ks[b]
  }

  // Lemmas about the encoder, for any tags and values.

  lemma {:induction false} KeysOfPrepend(m: Member, ms: seq<Member>)
    ensures KeysOf([m] + ms) == [m.0] + KeysOf(ms)
  {
    assert ([m] + ms)[1..] == ms;
  }

  lemma {:induction false} LookupPrepend(m: Member, ms: seq<Member>, k: string)
    ensures Lookup([m] + ms, k) ==
            if Lookup(ms, k).Some? then Lookup(ms, k) else if m.0 == k then Some(m.1) else None
    decreases |ms|
  {
    if ms != [] {
      var n := |ms| - 1;
      assert ([m] + ms)[..|[m] + ms| - 1] == [m] + ms[..n];
      LookupPrepend(m, ms[..n], k);
    }
  }

  /** A key is among an object's keys exactly when the decoder finds a value for it. */
  lemma {:induction false} KeyPresentIffFound(ms: seq<Member>, k: string)
    ensures k in KeysOf(ms) <==> Lookup(ms, k).Some?
  {
    if ms != [] {
      assert ms == [ms[0]] + ms[1..];
      KeysOfPrepend(ms[0], ms[1..]);
      LookupPrepend(ms[0], ms[1..], k);
      KeyPresentIffFound(ms[1..], k);
    }
  }

  /** A key that no tag carries is never written. */
  lemma {:induction false} EncodeKeysAreTagKeys(tags: seq<Tag>, vals: seq<Json>, k: string)
    requires |tags| == |vals|
    requires k in KeysOf(Encode(tags, vals))
    ensures exists m :: 0 <= m < |tags| && k == tags[m].key
  {
    var head := if Written(tags[0], vals[0]) then [(tags[0].key, vals[0])] else [];
    var rest := Encode(tags[1..], vals[1..]);
    if head == [] {
      assert Encode(tags, vals) == rest;
    } else {
      KeysOfPrepend(head[0], rest);
    }
    if k != tags[0].key {
      EncodeKeysAreTagKeys(tags[1..], vals[1..], k);
      var m :| 0 <= m < |tags| - 1 && k == tags[1..][m].key;
      assert k == tags[m + 1].key;
    }
  }

  lemma EncodeOmitsForeignKey(tags: seq<Tag>, vals: seq<Json>, k: string)
    requires |tags| == |vals|
    requires forall m :: 0 <= m < |tags| ==> tags[m].key != k
    ensures k !in KeysOf(Encode(tags, vals))
  {
    if k in KeysOf(Encode(tags, vals)) {
      EncodeKeysAreTagKeys(tags, vals, k);
      assert false;
    }
  }

  /** Under distinct keys, the first key occurs in none of the later fields. */
  lemma FirstKeyNotInRest(tags: seq<Tag>)
    requires tags != [] && DistinctKeys(tags)
    ensures forall m :: 0 <= m < |tags[1..]| ==> tags[1..][m].key != tags[0].key
  {
    forall m | 0 <= m < |tags[1..]|
      ensures tags[1..][m].key != tags[0].key
    {
      assert tags[1..][m] == tags[m + 1];
    }
  }

  /** With distinct keys, the decoder finds field j's value iff field j was written. */
  lemma {:induction false} LookupEncode(tags: seq<Tag>, vals: seq<Json>, j: nat)
    requires |tags| == |vals| && j < |tags|
    requires DistinctKeys(tags)
    ensures Lookup(Encode(tags, vals), tags[j].key) ==
            if Written(tags[j], vals[j]) then Some(vals[j]) else None
  {
    var head := if Written(tags[0], vals[0]) then [(tags[0].key, vals[0])] else [];
    var rest := Encode(tags[1..], vals[1..]);
    var k := tags[j].key;
    assert DistinctKeys(tags[1..]);
    if head == [] {
      assert Encode(tags, vals) == rest;
    } else {
      LookupPrepend(head[0], rest, k);
    }
    if j == 0 {
      KeyPresentIffFound(rest, k);
      FirstKeyNotInRest(tags);
      EncodeOmitsForeignKey(tags[1..], vals[1..], k);
    } else {
      LookupEncode(tags[1..], vals[1..], j - 1);
    }
  }

  /** With distinct keys, no key is written twice. */
  lemma {:induction false} EncodeNoDuplicates(tags: seq<Tag>, vals: seq<Json>)
    requires |tags| == |vals|
    requires DistinctKeys(tags)
    ensures NoDuplicates(KeysOf(Encode(tags, vals)))
  {
    if tags != [] {
      var rest := Encode(tags[1..], vals[1..]);
      var ks := KeysOf(rest);
      assert DistinctKeys(tags[1..]);
      EncodeNoDuplicates(tags[1..], vals[1..]);
      if Written(tags[0], vals[0]) {
        var k := tags[0].key;
        KeysOfPrepend((k, vals[0]), rest);
        FirstKeyNotInRest(tags);
        EncodeOmitsForeignKey(tags[1..], vals[1..], k);
        forall a, b | 0 <= a < b < |[k] + ks|
          ensures ([k] + ks)[a] != ([k] + ks)[b]
        {
          if a > 0 {
            assert ([k] + ks)[a] == ks[a - 1];
          }
          assert ([k] + ks)[b] == ks[b - 1];
        }
      } else {
        assert Encode(tags, vals) == rest;
      }
    }
  }

  /** Field j's key is among the emitted keys exactly when field j is written. */
  lemma KeyEmittedIff(r: Result, j: nat)
    requires j < |Tags|
    ensures Tags[j].key in EmittedKeys(r) <==> Written(Tags[j], FieldValues(r)[j])
  {
    if Tags[j].key in EmittedKeys(r) {
      var i :| 0 <= i < |Tags| && Written(Tags[i], FieldValues(r)[i]) && Tags[i].key == Tags[j].key;
      CandidateFieldOfTag(i);
      CandidateFieldOfTag(j);
    }
  }

  /** Two leading fields without omitempty are always written, first and in order. */
  lemma EncodeLeadingMandatory(tags: seq<Tag>, vals: seq<Json>)
    requires |tags| == |vals| >= 2
    requires !tags[0].omitEmpty && !tags[1].omitEmpty
    ensures |KeysOf(Encode(tags, vals))| >= 2
    ensures KeysOf(Encode(tags, vals))[..2] == [tags[0].key, tags[1].key]
  {
    var rest := Encode(tags[2..], vals[2..]);
    assert tags[1..][1..] == tags[2..] && vals[1..][1..] == vals[2..];
    assert Encode(tags[1..], vals[1..]) == [(tags[1].key, vals[1])] + rest;
    KeysOfPrepend((tags[0].key, vals[0]), [(tags[1].key, vals[1])] + rest);
    KeysOfPrepend((tags[1].key, vals[1]), rest);
  }
}
