# EHR chaincode record engine

A Dafny model of the Hyperledger Fabric chaincode in `chaincode/main.go`. The chaincode stores
Electronic Health Records as JSON documents in the ledger's key/value state, keyed by the
transaction id that created them. Callers reach it through named operations:

- `getPatientDetails` creates a record from six positional arguments. The birthday must be a
  `2006-01-02`-layout date.
- `viewPatientDetails` returns the stored bytes.
- `updateFileUploads` appends a file entry. `createEHR`, despite its name, appends an EHR entry.
  Both are read-modify-writes that stamp the new entry with the clock truncated to the minute.
- `invoke` with the sub-actions `query` and `invoke` reads and writes the bootstrap key `"hello"`.
- `Init` writes a placeholder record under `"hello"`.

Modules:

- `Clock`: timestamps as integer fields, leap years, month lengths, and truncation to the minute.
- `DateLayout`: Go's `time.Parse` with layout `"2006-01-02"`, as parse and format functions with
  round-trip lemmas.
- `Records`: the `EHR`, `f_uploads` and `ehr_uploads` types and an abstract JSON codec.
  `Json(d)` stands for the bytes `json.Marshal` writes for `d`, and `Text(s)` for raw bytes.
  `encoding/json` ignores unexported struct fields, so `uploadedDate`, `fileInfo`, `ehrTID` and
  `prescriptionInfo` read back as zero values even though they carry JSON tags. Marshalling
  fails when an exported time has a year outside 0..9999, as `Time.MarshalJSON` does.
- `Engine`: every operation as a pure step from a `World` to the next `World` plus a response.
  A `World` is the state map together with the log of emitted events.
- `EngineProperties`: the lemmas about those steps.
- `Chaincode`: the imperative layer. It has two classes:
  - `EhrRecord` is the decoded `*EHR`. Its `AddFileUploads` and `AddEhrUploads` append to its
    lists in place.
  - `Ledger` holds `state` and `events`. Its handlers read, decode, mutate, encode, put and set
    the event in the source's order, and each handler's postcondition says that it ends in the
    ledger and response of the matching `Engine` step.

Inputs the chaincode gets from its environment are parameters: the transaction id
(`GetTxID`), the clock reading (`time.Now()`), and the decimal nanosecond suffix of the `hello`
write. The stub calls `GetState`, `PutState` and `SetEvent` are the `Ledger` methods of the same
names.

The code differs from what its web front end and `model/model.go` suggest:

- The chaincode has no `createPatient` operation and no Patient entity. The web front end
  invokes `createPatient`, and the chaincode answers "Unknown function call".
- Records are created by `getPatientDetails`. `createEHR` appends to an existing record.
- No handler retries a failed store call or handles write conflicts.
- The chaincode has one schema: `EHR` with `FileUploads`/`EhrUploads`. The
  `SocialSecurityNum`/`Appointments` schema of `model/model.go` is not part of this model.
- The error messages are the code's own strings, including `createEHR`'s `"wrong inout"`.
- A record's id never changes and its upload lists only grow, for every key except two.
  - Under `"hello"`, the `hello` invoke overwrites whatever is stored with text that no longer
    decodes, and `Init` resets it to the empty placeholder. So a record stored under
    `"hello"`, for example by a file upload after `Init`, can lose its history.
  - `getPatientDetails` overwrites the key equal to its transaction id. Fabric transaction
    ids are unique, so in practice that key is new.

Two defects in the file itself:

- The `ehr_uploads` struct at `chaincode/main.go:38-41` lacks its closing brace.
- The `getEHR` handler routed at line 106 is not defined anywhere in the file.

The model reads the struct as the three fields listed. It routes `getEHR` to a distinct
`Unsupported` response and changes nothing.

## Model

| member | source | states |
|---|---|---|
| `Clock.TruncateToMinute` | chaincode/main.go:370-376 | the stamp is on a minute boundary and has the clock's year, month, day, hour and minute; a valid reading stays valid and the stamp is not after it |
| `Clock.TruncateIsFloor` | chaincode/main.go:370-376 | the stamp is the latest minute boundary not after the reading |
| `Clock.TruncateSameMinute` | chaincode/main.go:370-376 | readings in the same minute get the same stamp, so appends within one minute are ordered only by list position |
| `Clock.DaysIn` | chaincode/main.go:216 | Gregorian month lengths: February has 29 days exactly in leap years and 28 otherwise, April, June, September and November 30, the other months 31 |
| `DateLayout.ParseDate` | chaincode/main.go:216 | the text is accepted iff it is four digits, '-', two digits, '-', two digits, with month 1..12 and day within that month of that year; the result is a valid midnight date with a four-digit year |
| `DateLayout.FormatParse` | chaincode/main.go:216 | every accepted text is exactly the formatting of the parsed date |
| `DateLayout.ParseFormat` | chaincode/main.go:216 | every midnight date with a year in 0..9999 is parsed back from its formatting |
| `DateLayout.ParseAcceptsExactlyFormatted` | chaincode/main.go:216 | the parser accepts exactly the texts that format some expressible date |
| `DateLayout.LayoutExamples` | chaincode/main.go:216-223 | "2024-02-30", "1900-02-29", month 13, day 00, a one-digit month and trailing text are rejected; "2024-02-29" and "2000-02-29" are accepted |
| `Records.ExportFiles` | chaincode/main.go:32-36 | a file list reads back with the same length, and each entry keeps only its hash |
| `Records.ExportEhrs` | chaincode/main.go:38-41 | an EHR list reads back with the same length, and each entry keeps only its diagnosis time |
| `Records.Exported` | chaincode/main.go:19-41 | a decoded record keeps every EHR field and, in the entries, only `IPFS_fHash` and `DiagnosisTime`; the other entry fields are zero |
| `Records.Encode` | chaincode/main.go:295-299 | marshalling succeeds iff the birthday and every diagnosis time have years in 0..9999 |
| `Records.Decode` | chaincode/main.go:411-416 | only a JSON document decodes, and what it yields can always be marshalled again |
| `Records.RoundTrip` | chaincode/main.go:32-41 | decoding what was encoded gives exactly the exported part of the record |
| `Records.ExportedIdempotent` | chaincode/main.go:32-41 | a second round-trip loses nothing more |
| `Records.DecodeEncodeStable` | chaincode/main.go:280-295 | re-encoding a decoded record and decoding again gives the same record |
| `Records.ExportFilesAppend` | chaincode/main.go:377 | the stored form of a list with one more file entry is the old stored form plus that entry's stored form |
| `Records.ExportEhrsAppend` | chaincode/main.go:394 | the same for an EHR entry |
| `Engine.Commit` | chaincode/main.go:231-240 | one put and one event: only the given key changes, it holds the written bytes, and one `eventInvoke` is appended |
| `Engine.InitStep` | chaincode/main.go:50-85 | `Init` succeeds iff the name is "init" and the clock's year can be marshalled; it then writes only the placeholder under "hello" and emits no event; on failure nothing changes |
| `Engine.GetEhrById` | chaincode/main.go:402-419 | the lookup succeeds iff the key is present and its bytes decode; an absent key gives "EHR does not exist" and undecodable bytes give "Error unmarshalling JSON" |
| `Engine.Placeholder` | chaincode/main.go:61-70 | the placeholder can be marshalled iff the clock's year is in 0..9999; its birthday is the clock reading, and it loses nothing on the store round-trip |
| `Engine.NewPatient` | chaincode/main.go:209-219 | the new record's id is the transaction id; it can be marshalled iff the birthday's year is in 0..9999, and, its upload lists being empty, it loses nothing on the store round-trip; the field order is stated by `EngineProperties.GetPatientDetailsCreates` |
| `Engine.GetPatientDetailsStep` | chaincode/main.go:201-243 | succeeds iff there are six arguments and the fifth is a layout date; then it returns the transaction id, stores the new record under it, changes no other key and emits one event; a failure changes nothing; the messages are stated by `EngineProperties.GetPatientDetailsRejects` |
| `Engine.ViewPatientDetails` | chaincode/main.go:248-266 | succeeds iff there is one argument and it is a present key; then it returns that key's stored bytes; otherwise it is an error |
| `Engine.AppendStep` | chaincode/main.go:280-312 | the read-modify-write both appends share (`createEHR`'s copy is at 328-360): succeeds iff the lookup succeeds and the updated record can be marshalled; then only that key is written, one event is emitted, and the response carries exactly the bytes written, the encoding of the updated record; a failure is an error and changes nothing |
| `Engine.UpdateFileUploadsStep` | chaincode/main.go:271-313 | succeeds iff there are three arguments and the record under the first decodes; a failure changes nothing; what it writes is stated by `EngineProperties.UpdateFileUploadsAppends` |
| `Engine.CreateEhrStep` | chaincode/main.go:319-361 | succeeds iff there are three arguments, the record under the first decodes and the clock's year is in 0..9999; a failure changes nothing; what it writes is stated by `EngineProperties.CreateEhrAppends` |
| `Engine.Query` | chaincode/main.go:136-160 | succeeds iff there are at least two arguments and the second is "hello"; the payload is present iff "hello" is a key, and is then its stored bytes |
| `Engine.InvokeHelloStep` | chaincode/main.go:164-196 | with the guard corrected to three arguments: succeeds iff there are exactly three arguments and the second is "hello"; then it writes the third argument followed by the suffix under "hello", changes no other key, emits one event and returns nil; otherwise nothing changes |
| `Engine.InvokeHelloAsWritten` | chaincode/main.go:164-196 | the code as written reads out of range exactly when there are two arguments, at index 2 of a slice of length 2; on every other count it behaves as `Engine.InvokeHelloStep` |
| `Engine.InvokeStep` | chaincode/main.go:89-132 | a call that does not succeed changes nothing; only `getPatientDetails`, `updateFileUploads`, `createEHR` and `invoke` can change the ledger; the response is `Unsupported` exactly for `getEHR` |
| `Records.AppendFile` | chaincode/main.go:368-379 | the file list gains one entry at the end and keeps its earlier entries; the entry holds the given hash and info and a date on a minute boundary within the clock's minute; every other field is unchanged; the record can be marshalled iff it could before |
| `Records.AppendEhr` | chaincode/main.go:385-396 | the same for the EHR list and its diagnosis time; the record can be marshalled iff it could before and the clock's year is in 0..9999 |
| `EngineProperties.GetPatientDetailsRejects` | chaincode/main.go:205-223 | an argument count other than 6 or an invalid birthday fails with its message and leaves state and events unchanged |
| `EngineProperties.GetPatientDetailsCreates` | chaincode/main.go:209-242 | a valid create writes only the tx-id key with a record whose id is the tx id, whose fields are args 0..5 in order and whose upload lists are empty; it appends one event and returns the tx id |
| `EngineProperties.CreateThenView` | chaincode/main.go:201-265 | viewing the returned id right after a create gives a document whose fields, birthday printed in the layout, equal the six arguments |
| `EngineProperties.ViewReturnsStoredBytes` | chaincode/main.go:252-265 | with one present key the stored bytes come back unchanged; an absent key gives "Patient details do not exist"; any other count gives "Wrong input" |
| `EngineProperties.UpdateFileUploadsAppends` | chaincode/main.go:276-312 | on a decodable record: only that key is written and one event is emitted; the file list gains one entry at the end; earlier entries, the EHR list and the other fields are unchanged; the written document is returned |
| `EngineProperties.CreateEhrAppends` | chaincode/main.go:324-360 | the same for `createEHR` on the EHR list; the new entry's diagnosis time is the clock truncated to the minute |
| `EngineProperties.CreateEhrMarshalFails` | chaincode/main.go:343-347 | when the clock's year cannot be marshalled, `createEHR` fails and changes nothing |
| `EngineProperties.AppendRejects` | chaincode/main.go:276-336 | for both appends (`updateFileUploads` at 276-288, `createEHR` at 324-336), a count other than 3 fails with the handler's message; an absent key or undecodable bytes fail with the lookup's message from `getEHRbyID` (402-416); none of these writes or emits an event |
| `EngineProperties.AppendAfterHelloWriteFails` | chaincode/main.go:174-179 | after the `hello` text write, whose value ends in the decimal nanosecond of the clock, appending to "hello" fails with "Error unmarshalling JSON" |
| `EngineProperties.UpdateFileUploadsExtends` | chaincode/main.go:289-301 | one file upload extends the stored record by one hash-only entry, keeps every other key's bytes and the key set, and emits one `eventInvoke` |
| `EngineProperties.CreateEhrExtends` | chaincode/main.go:337-349 | one EHR upload extends the stored record by one entry with the minute-truncated time, keeps every other key's bytes and the key set, and emits one `eventInvoke` |
| `EngineProperties.ExtendsTransitive` | chaincode/main.go:377 | extensions compose: appending `f1` then `f2` is appending `f1 + f2`, and other keys stay unchanged across both |
| `EngineProperties.UploadFilesEvents` | chaincode/main.go:271-313 | N file uploads to a decodable record append exactly N `eventInvoke` events to the log |
| `EngineProperties.UploadEhrsEvents` | chaincode/main.go:319-361 | N EHR uploads to a decodable record, every clock year in 0..9999, append exactly N `eventInvoke` events |
| `EngineProperties.UploadFilesInOrder` | chaincode/main.go:271-313 | N file uploads extend the file list by exactly the N hashes in call order, leave the record's other fields, the key set and every other key's bytes unchanged, and append exactly N `eventInvoke` events |
| `EngineProperties.UploadEhrsInOrder` | chaincode/main.go:319-361 | N EHR uploads extend the EHR list by exactly N entries in call order, each with its call's truncated minute, leave everything else as `UploadFilesInOrder` does, and append exactly N `eventInvoke` events |
| `EngineProperties.CreateThenUploadFiles` | chaincode/main.go:201-313 | a fresh record given N file uploads holds exactly those N hashes, in order, and no EHR entries |
| `EngineProperties.InvokeRejectsUnknownName` | chaincode/main.go:96-112 | any name outside the five routed ones and "invoke" fails with "Unknown function call" and changes nothing |
| `EngineProperties.CreatePatientNotRouted` | chaincode/main.go:96-112 | "createPatient" is not routed |
| `EngineProperties.InvokeRejectsUnknownAction` | chaincode/main.go:115-131 | "invoke" whose first argument is neither "query" nor "invoke" fails with no state change |
| `EngineProperties.ReadsLeaveLedger` | chaincode/main.go:99-123 | view, query and the undefined `getEHR` never change the ledger |
| `EngineProperties.QueryReadsHello` | chaincode/main.go:140-159 | a query with "hello" returns the bytes under "hello", or nil when absent; fewer than 2 arguments or another action is an error |
| `EngineProperties.InvokeWritesAtMostOnce` | chaincode/main.go:89-132 | every call either leaves the ledger unchanged or writes exactly one key and emits one event; a call that does not succeed leaves the ledger unchanged |
| `EngineProperties.InvokeKeepsHistory` | chaincode/main.go:89-132 | after any call, a decodable record under a key other than the transaction id and "hello" is still decodable, with the same id and details, and its file and EHR lists have only grown at their ends |
| `EngineProperties.HelloHistoryLost` | chaincode/main.go:164-196 | "hello" is exempt: after `Init` (50-85) and a file upload to "hello" (271-313), the record there has one entry; the `hello` invoke then replaces it with text that no longer decodes, and `Init` again resets it to the empty placeholder |
| `EngineProperties.InvokeAsWrittenReadsPastEnd` | chaincode/main.go:167-172 | as written, `["invoke", "hello"]` passes the guard and then reads index 2 of a 2-element slice |
| `EngineProperties.InvokeAsWrittenAgreesElsewhere` | chaincode/main.go:167-195 | on every other argument count the code as written behaves as the corrected guard |
| `EngineProperties.InvokeHelloGuarded` | chaincode/main.go:164-196 | with the corrected guard: fewer than 3 arguments is "insufficient"; the ledger changes exactly for `["invoke", "hello", v]`; that call writes `v + suffix` under "hello" and emits one event |
| `Chaincode.EhrRecord.constructor` | chaincode/main.go:411-412 | the record object holds the decoded value |
| `Chaincode.EhrRecord.AddFileUploads` | chaincode/main.go:368-379 | the object's file list grows by one entry at the end; the entry's date is on a minute boundary in the clock's minute; nothing else changes |
| `Chaincode.EhrRecord.AddEhrUploads` | chaincode/main.go:385-396 | the same for the EHR list and its diagnosis time |
| `Chaincode.Ledger.GetEhrById` | chaincode/main.go:402-419 | returns a fresh object holding the decoded record, or the lookup's error message |
| `Chaincode.Ledger.Init` | chaincode/main.go:50-85 | ends in the ledger and response of `Engine.InitStep` |
| `Chaincode.Ledger.Invoke` | chaincode/main.go:89-132 | ends in the ledger and response of the dispatch step for every name and argument list |
| `Chaincode.Ledger.InvokeHello` | chaincode/main.go:164-196 | ends in the corrected `invoke` step |
| `Chaincode.Ledger.GetPatientDetails` | chaincode/main.go:201-243 | ends in the create step: validate, build, marshal, put, set event |
| `Chaincode.Ledger.UpdateFileUploads` | chaincode/main.go:271-313 | ends in the file-append step after mutating a fresh decoded object in place |
| `Chaincode.Ledger.CreateEhr` | chaincode/main.go:319-361 | ends in the EHR-append step after mutating a fresh decoded object in place |

## Findings

| source | as written | input that shows it | evidently intended | confidence | as-written member | corrected member |
|---|---|---|---|---|---|---|
| chaincode/main.go:167-172 | `invoke` refuses only `len(args) < 2`, then reads `args[2]` | `Invoke("invoke", ["invoke", "hello"])` indexes past the end of a 2-element slice, and Go panics | refuse anything shorter than 3 arguments as "The number of arguments is insufficient." | not executed | `EngineProperties.InvokeAsWrittenReadsPastEnd` | `EngineProperties.InvokeHelloGuarded` |

The as-written behaviour is `Engine.InvokeHelloAsWritten`. The corrected guard,
`Engine.InvokeHelloStep`, is the one `Engine.InvokeStep` and `Chaincode.Ledger.InvokeHello` use.

## Left out

- Fabric shim plumbing is not modelled: `shim.Start`/`main`, `GetFunctionAndParameters` and the
  `pb.Response` wrapping. The state map, the event log and the response datatype stand for them.
- Store and event failures are not modelled: `GetState`, `PutState` and `SetEvent` never fail
  here, so the "Failed to get state", "Error writing to state" and `SetEvent` error branches are
  absent. A Fabric transaction whose chaincode returns an error is not committed. The model
  never reaches those branches after a write.
- Time zones are not modelled. `addfileuploads`/`addehruploads` label the local wall-clock
  fields as UTC, and the model keeps only the fields.
- Go's `time.Date` normalises out-of-range fields. The model copies the fields, which is the same
  thing for any real clock reading.
- The JSON byte layout is abstract. `Json(d)` stands for the bytes; field order, escaping, the
  RFC 3339 text of times, and nil-versus-empty slices (`null` versus `[]`) are not modelled.
- The `hello` value: `Text` bytes never decode as a record. The `hello` write always ends in the
  decimal nanosecond of the clock (`Engine.DecimalText`), so it is never a JSON object or `null`;
  `EngineProperties.AppendAfterHelloWriteFails` requires such a suffix.
- The nanosecond suffix of the `hello` write is an input string, because it comes from the clock.
- `Init` and any `time.Time` carry a monotonic clock reading and a location. Neither is modelled.
- `getEHR` (chaincode/main.go:105-106) calls a function the file does not define. The model
  returns `Unsupported("getEHR")` and leaves the ledger unchanged, and says nothing more about it.
- The `ehr == nil` branches (lines 285-288, 333-336) cannot be reached, because `getEHRbyID`
  never returns a nil record without an error. The `err != nil` results of
  `addfileuploads`/`addehruploads` cannot be reached either, because both always return nil.
- Logging (`fmt.Println`) is not modelled.
- Strings are modelled as Unicode text. Fabric arguments are Go byte strings, and
  `encoding/json` replaces each invalid UTF-8 byte with U+FFFD. The round-trip equalities of
  `Records.Exported`, `Records.RoundTrip`, `EngineProperties.GetPatientDetailsCreates` and
  `EngineProperties.CreateThenView` therefore hold only for arguments that are valid UTF-8.
- Concurrency is not modelled: MVCC conflict detection, endorsement and ordering belong to the
  ledger platform. The model runs one call at a time, so the lost-update race between two
  concurrent appends to the same key is not represented.
- `SetEvent` replaces a transaction's single event in Fabric. The model appends to an event log,
  one entry per successful mutating call.
- `web/`, `blockchain/createPatient.go` and `model/model.go` are not part of this model. They
  hold the HTTP front end, a one-line argument-packing wrapper, and an alternate schema that no
  chaincode code uses.
