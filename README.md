# cbeventlog run controller, event records and alert-configuration endpoints

This project models three small parts of the observability repository in Dafny and proves properties of them.

- **The `cbeventlog` command** (`cluster-manager/repo/cmd/cbeventlog/main.go`). It builds a Couchbase event log, either from a live node (`node` mode) or from a zipped cbcollect archive (`cbcollect` mode). The model covers the run controller `run` and its two entry points, `runCluster` and `runCbcollect`. `run` does the following, in order:
  - rejects giving both an include list and an exclude list;
  - initialises the logger;
  - parses the chosen event-type list;
  - falls back to the working directory when no log path is given;
  - runs every registered parser, in order, and only logs a warning when one fails;
  - merges the per-parser logs, and returns the error if that fails;
  - when an event list was given, filters the merged log and returns the filter's error.

  The model is an imperative method, `CbEventLog.Run`, with a loop over the parser registry. It is proved equal to a specification function, `RunSpec`. `RunSpec` gives the error returned and the ordered trace of calls to collaborators and to the logger (`Step`). The lemmas in `CbEventLogTrace` establish the properties of that trace.
- **The event record `Result`** (`cluster-manager/repo/log/values/result.go`), with its JSON struct tags. `ResultJson` models the marshalled form as an ordered list of key/value members:
  - fields are written in declaration order;
  - `omitempty` leaves a zero-valued field out;
  - decoding reads each key from its last occurrence (Go's decoder differs when a key repeats; see "Left out" below);
  - a missing key decodes to the zero value;
  - a value of the wrong kind makes decoding fail.

  `ResultKeys` proves that the keys are distinct, which keys are written, and that decoding what was marshalled gives the record back.
- **The alert-notification endpoints** (`config-svc/pkg/api/routes_v1_am.go`). `GetAlertsConfiguration` reads the alertmanager configuration and reports the Slack and email blocks it sets up. `PutAlertsConfiguration` always fails with `NYI`.

## Files

| file | module | contents |
|---|---|---|
| `wrappers.dfy` | `Wrappers` | `Option` with failure-propagation members |
| `values.dfy` | `Values` | `Credentials`, `EventType`, `Result` |
| `result_json.dfy` | `ResultJson` | the struct tags, encoding, decoding, lookup lemmas |
| `result_keys.dfy` | `ResultKeys` | emitted keys, omitempty, round trip |
| `cbeventlog.dfy` | `CbEventLog` | the environment, `RunSpec`, `Run`, `RunCluster`, `RunCbcollect` |
| `cbeventlog_trace.dfy` | `CbEventLogTrace` | properties of the run trace |
| `alerts.dfy` | `AlertsApi` | the two alert-configuration handlers |

## Model

| member | source | states |
|---|---|---|
| CbEventLog.Run | cluster-manager/repo/cmd/cbeventlog/main.go:127-188 | The loop-based controller returns exactly the error and the call/log trace that `RunSpec` gives for the flags, credentials, cbcollect path, parser registry and environment. |
| CbEventLog.RunCluster | cluster-manager/repo/cmd/cbeventlog/main.go:106-115 | Node mode runs the controller with credentials built from username, password, node and node-name, and an empty cbcollect path. |
| CbEventLog.RunCbcollect | cluster-manager/repo/cmd/cbeventlog/main.go:117-125 | Cbcollect mode runs the controller with credentials holding only the node name, and the `path` flag as the cbcollect path. |
| CbEventLog.BothListsRejected | cluster-manager/repo/cmd/cbeventlog/main.go:128-130 | Giving both an include and an exclude list fails with the fixed message before anything else happens. The trace is empty. |
| CbEventLog.LoggerInitFailure | cluster-manager/repo/cmd/cbeventlog/main.go:132-134 | A logger initialisation failure is returned, prefixed with `could not initialize logger: `. Nothing after the init attempt happens. |
| CbEventLog.ListErrorReturned | cluster-manager/repo/cmd/cbeventlog/main.go:142-151 | An error from parsing the event list is returned unchanged. No working-directory lookup, parser, merge or filter follows it. |
| CbEventLog.GetwdFailure | cluster-manager/repo/cmd/cbeventlog/main.go:153-159 | With no log path flag, a working-directory error is returned unchanged, and nothing after it runs. |
| CbEventLog.RunSpec | cluster-manager/repo/cmd/cbeventlog/main.go:127-188 | The specification of `run`: the early returns in source order, then the start message, the parser loop and `Conclude`. Its properties are the lemmas below. |
| CbEventLog.Conclude | cluster-manager/repo/cmd/cbeventlog/main.go:170-187 | What follows the parser loop: the merge, whose error ends the run; the success message; and, when an event list was given, the filter, whose error is returned. |
| CbEventLogTrace.ListSelection | cluster-manager/repo/cmd/cbeventlog/main.go:136-147 | The event list parsed is the include list when one is given, and otherwise the exclude list. Every filter call gets `including` true exactly when the include list was given. |
| CbEventLogTrace.LogPathDefault | cluster-manager/repo/cmd/cbeventlog/main.go:153-159 | The working directory is asked for iff the log path flag is empty. Every parser run gets the flag's path, or the working directory when the flag is empty. |
| CbEventLogTrace.ParsersAttemptedInOrder | cluster-manager/repo/cmd/cbeventlog/main.go:163-168 | Every registered parser is run exactly once, in registry order. A warning is logged for exactly the parsers that fail, in the same order. |
| CbEventLogTrace.ParserOutcomesIgnored | cluster-manager/repo/cmd/cbeventlog/main.go:163-168 | Changing what the parsers return changes neither the returned error nor which parsers run. |
| CbEventLogTrace.MergeOnceAfterParsers | cluster-manager/repo/cmd/cbeventlog/main.go:170-174 | The merge is called exactly once, with the run's credentials, and no parser runs after it. |
| CbEventLogTrace.StageOrder | cluster-manager/repo/cmd/cbeventlog/main.go:163-187 | The stages come in order: every parser call comes before the merge call, and any filter call comes after it. |
| CbEventLogTrace.MergeFailureReturned | cluster-manager/repo/cmd/cbeventlog/main.go:170-174 | A merge failure is returned as the run's error, and no filtering happens. |
| CbEventLogTrace.NoEventListNoFilter | cluster-manager/repo/cmd/cbeventlog/main.go:176-180 | After a successful merge with no event list, the run succeeds without calling the filter. |
| CbEventLogTrace.FilterOutcomeReturned | cluster-manager/repo/cmd/cbeventlog/main.go:176-187 | After a successful merge with an event list, the filter is called exactly once, with the credentials, the list and the include flag. Its outcome is the run's outcome. |
| CbEventLogTrace.StepArguments | cluster-manager/repo/cmd/cbeventlog/main.go:163-182 | Every parser, merge and filter call in the trace gets the run's own credentials, and every parser call gets the run's cbcollect path. |
| CbEventLogTrace.NodeModeArguments | cluster-manager/repo/cmd/cbeventlog/main.go:106-114 | In node mode, every call gets the credentials from the four node flags, and every parser call gets an empty cbcollect path. |
| CbEventLogTrace.CbcollectModeArguments | cluster-manager/repo/cmd/cbeventlog/main.go:117-124 | In cbcollect mode, every call gets credentials with only the node name set, and every parser call gets the `path` flag. |
| ResultJson.Tags | cluster-manager/repo/log/values/result.go:8-36 | The JSON key of each field in declaration order, and whether it carries omitempty: only `timestamp` and `event_type` do not. |
| ResultJson.FieldValue | cluster-manager/repo/log/values/result.go:8-36 | The value of the field each tag is attached to, as a JSON value of that field's kind. |
| ResultJson.Marshal | cluster-manager/repo/log/values/result.go:7-37 | `json.Marshal` of a record: the written fields as key/value members, in declaration order. Its properties are `MarshalWritesEmittedKeys`, `MandatoryKeysAlwaysEmitted` and `RoundTrip`. |
| ResultJson.EmittedKeys | cluster-manager/repo/log/values/result.go:7-37 | The set of keys a record is written with: each mandatory key, and each omitempty key whose field is non-zero. |
| ResultJson.Unmarshal | cluster-manager/repo/log/values/result.go:7-37 | `json.Unmarshal` into a record: each field read by kind from its key, a missing key giving the zero value and a wrong kind failing. Its property is `RoundTrip`. |
| ResultKeys.TagKeysDistinct | cluster-manager/repo/log/values/result.go:7-37 | No two fields of `Result` share a JSON key. |
| ResultKeys.MandatoryKeysAlwaysEmitted | cluster-manager/repo/log/values/result.go:8-9 | `timestamp` and `event_type` are written for every record, as the first two members. |
| ResultKeys.OptionalFieldsOmittedWhenZero | cluster-manager/repo/log/values/result.go:10-36 | Every other field is omitempty. It is written iff it is non-zero: a bool iff true, a string iff non-empty, a number iff non-zero, a slice or map iff non-empty. |
| ResultKeys.MarshalWritesEmittedKeys | cluster-manager/repo/log/values/result.go:7-37 | The marshalled members carry no key twice, and their keys are exactly the emitted keys. |
| ResultKeys.FieldRoundTrip | cluster-manager/repo/log/values/result.go:7-37 | The value found under a field's key in the marshalled form decodes, by that field's kind, to the field's value, omitted fields included. |
| ResultKeys.DecodeFieldsOf | cluster-manager/repo/log/values/result.go:7-37 | Per-field values that each decode to a record's field decode together to that record. |
| ResultKeys.RoundTrip | cluster-manager/repo/log/values/result.go:7-37 | Unmarshalling what `Marshal` wrote gives back the same record. |
| ResultJson.KeyEmittedIff | cluster-manager/repo/log/values/result.go:7-37 | A field's key is emitted iff the field is mandatory or its value is non-zero. |
| ResultJson.LookupEncode | cluster-manager/repo/log/values/result.go:7-37 | With distinct keys, looking up a field's key in the encoding finds its value if written, and nothing otherwise. |
| ResultJson.EncodeNoDuplicates | cluster-manager/repo/log/values/result.go:7-37 | Encoding under distinct keys writes no key twice. |
| ResultJson.EncodeKeysAreTagKeys | cluster-manager/repo/log/values/result.go:7-37 | Every key in the encoding is the key of some field; `EncodeOmitsForeignKey` is the same fact read the other way (a key of no field never appears). |
| ResultJson.KeyPresentIffFound | cluster-manager/repo/log/values/result.go:7-37 | A key occurs among the members iff looking it up finds a value. |
| AlertsApi.AlertsFrom | config-svc/pkg/api/routes_v1_am.go:29-50 | The Slack block is absent iff both Slack settings are empty. The URL file takes precedence and gives `configured_externally` true with no webhook. Otherwise the webhook URL is copied. The email block is present iff `from` and `hello` are both set, and it then copies every SMTP setting. |
| AlertsApi.GetAlertsConfiguration | config-svc/pkg/api/routes_v1_am.go:18-52 | An open or decode failure of the default path is an error, with the matching prefix and cause. Otherwise the reply has status 200. |
| AlertsApi.PutAlertsConfiguration | config-svc/pkg/api/routes_v1_am.go:55-57 | The update handler fails with `NYI`, whatever it is sent. |
| AlertsApi.GetReportsDecodedConfig | config-svc/pkg/api/routes_v1_am.go:25-52 | A decoded configuration is answered with status 200 and the blocks `AlertsFrom` gives for its global section. |
| AlertsApi.GetReadsOnlyDefaultPath | config-svc/pkg/api/routes_v1_am.go:15-19 | The reply depends only on what reading `/etc/alertmanager/config.yml` gives. |
| AlertsApi.SlackDependsOnSlackSettings | config-svc/pkg/api/routes_v1_am.go:33-37 | The Slack block is a function of the two Slack settings alone. |
| AlertsApi.EmailDependsOnSmtpSettings | config-svc/pkg/api/routes_v1_am.go:39-50 | The email block is a function of the SMTP settings alone. |
| AlertsApi.NothingConfigured | config-svc/pkg/api/routes_v1_am.go:29-37 | With no Slack setting, and `from` or `hello` unset, both blocks are absent. |

## Environment as parameters

`run` talks to code outside the core through six calls: `logger.Init`, `utilities.GetEventList`, `os.Getwd`, `scraper.RunParsers`, `scraper.MergeEventLogs` and `scraper.FilterEvents`. The model takes them as the fields of an `Env` value, each a deterministic function of its arguments. `parsers.ParserFunctions` is the `registry` parameter. The calls to the zap logger are `Info`, `ParserWarning`, `MergeWarning` and `FilterWarning` steps in the trace. In the alert endpoint, opening and YAML-decoding a file become the `load` parameter, which says what reading each path gives.

## Two behaviours of `run` worth noting

- A failing filter is not tolerated: `run` logs a warning and then returns the filter's error (main.go:182-187). See `FilterOutcomeReturned`.
- `run` attempts every entry of `ParserFunctions` in both modes (main.go:163-168). Whether a parser does anything for a given mode is up to `scraper.RunParsers`, which is not part of this model. See `ParsersAttemptedInOrder`.

## Left out

- `main` and the urfave/cli application (main.go:18-104): command and flag declarations, the `Required` checks done by the CLI library, and the final `Fatalw`. The modes start from already-parsed flag values.
- Logging: the calls to the zap logger are modelled only as trace steps recording the message and the warning's log name or error. Log levels are not modelled: `run` sets the logger to the warning level (main.go:132), so the two `Info` calls are steps in the trace although they write nothing. Structured fields are not modelled.
- `logger.Init`, `utilities.GetEventList`, `os.Getwd`, `scraper.RunParsers`, `scraper.MergeEventLogs`, `scraper.FilterEvents`: their bodies are not part of this model. They are deterministic environment functions, so effects of one call on a later one (such as the files that parsers write and the merge reads) are not modelled.
- `parsers.ParserFunctions` is a parameter. A parser is modelled by its name alone.
- `Result.Time`: `time.Time` and its RFC 3339 text form are modelled as an integer.
- JSON text: the encoding is modelled as an ordered list of key/value members, not bytes. Escaping, whitespace and number formatting are not modelled.
- `ResultJson.Unmarshal`: case-insensitive key matching and `null` values are not modelled. On a value of the wrong kind, Go's decoder carries on with the other fields and reports an error at the end; the model only fails the whole decode.
- `ResultJson.Unmarshal`: when a key repeats, the model reads only its last occurrence, and Go's decoder does not. Two cases differ. A repeated `settings` object is decoded into the map already there, so Go merges `{"a":"1"}` and then `{"b":"2"}` into a map with both entries, where the model keeps only `{"b":"2"}`. An earlier occurrence of the wrong kind, as in `"bucket":5` followed by `"bucket":"x"`, still makes Go return an error, where the model succeeds. `Marshal` never writes a key twice (`MarshalWritesEmittedKeys`), so `RoundTrip` is not affected.
- `ResultKeys.RoundTrip`: holds for the model's values, which merge distinctions Go makes. `groups`, `nodesIn`, `nodesOut` and `settings` are one `seq` or `map` value, where Go tells a nil slice or map from an empty non-nil one: Go omits `Groups: []string{}` when marshalling and decodes it back as nil, which is not the record it started from. `ticks` and `dataLost` are unbounded integers, where Go's `int` is 64 bits and its decoder rejects a number beyond that.
- `AlertsApi.GetAlertsConfiguration`: file handling (`OpenFile`, the deferred `Close`) and the YAML decoder become the `load` parameter. The Echo context becomes the `Reply` value, and the JSON body is the `AlertNotificationConfig` value. The `null` library's pointers are `Option`.
- `AlertsApi.PutAlertsConfiguration`: the request body is never read by the source; the model takes one only to show that it is ignored.
- `cluster-manager/repo/janitor/janitor.go`, `config-svc/pkg/api/routes_v1_cmosinfo.go` and `testing/screenshots/index.js` are not part of this model. They are context around the core.
