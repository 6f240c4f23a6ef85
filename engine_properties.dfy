/**
 * What the chaincode's operations promise, proved about the step functions of `Engine`:
 * which key a call writes, how the upload lists grow, which failures leave the
 * ledger untouched, and how the dispatcher routes names.
 */
module EngineProperties {
  import opened Basics
  import opened Clock
  import opened Records
  import opened Engine
  import DateLayout

  /** The two records agree on every field except the upload lists. */
  predicate SameDetails(a: EHR, b: EHR) {
    a.(fileUploads := [], ehrUploads := []) == b.(fileUploads := [], ehrUploads := [])
  }

  /** `w'` is `w` with `key` written once and one `eventInvoke` emitted; no other key changes. */
  predicate CommitsAt(w: World, w': World, key: string) {
    && key in w'.state
    && w'.state == w.state[key := w'.state[key]]
    && w'.events == w.events + [EventInvoke]
  }

  // ---------------------------------------------------------------- getPatientDetails

  /** A wrong argument count or a birthday that is not a "2006-01-02" date fails, writes nothing and emits nothing. */
  lemma GetPatientDetailsRejects(w: World, args: seq<string>, txId: string)
    requires |args| != 6 || DateLayout.ParseDate(args[4]).None?
    ensures GetPatientDetailsStep(w, args, txId) ==
      Outcome(w, Error(if |args| != 6 then "Wrong input" else "Error parsing birthday"))
  {
  }

  /**
   * A successful `getPatientDetails` writes only the transaction id, storing a record whose id is
   * that transaction id, whose fields are the arguments in order and whose upload lists are empty;
   * it emits one event and returns the transaction id.
   */
  lemma GetPatientDetailsCreates(w: World, args: seq<string>, txId: string)
    requires |args| == 6 && DateLayout.ParseDate(args[4]).Some?
    ensures var o := GetPatientDetailsStep(w, args, txId);
      && o.response == Success(Some(Text(txId)))
      && CommitsAt(w, o.world, txId)
      && Decode(o.world.state[txId]) == Some(EHR(txId, args[0], args[1], args[2], args[3],
           DateLayout.ParseDate(args[4]).value, args[5], [], []))
  {
  }

  /**
   * Read your writes: the id returned by a successful create, viewed at once, yields the stored
   * document, which decodes to the input fields; its birthday prints back as the input text.
   */
  lemma CreateThenView(w: World, args: seq<string>, txId: string)
    requires |args| == 6 && DateLayout.ParseDate(args[4]).Some?
    ensures var o := GetPatientDetailsStep(w, args, txId);
      && o.response.Success? && o.response.payload == Some(Text(txId))
      && var r := ViewPatientDetails(o.world.state, [txId]);
      && r.Success? && r.payload.Some?
      && var e := Decode(r.payload.value);
      && e.Some?
      && [e.value.firstname, e.value.lastname, e.value.contactNo, e.value.gender,
          DateLayout.FormatDate(e.value.birthday), e.value.address] == args
  {
    GetPatientDetailsCreates(w, args, txId);
    DateLayout.FormatParse(args[4]);
  }

  // ---------------------------------------------------------------- viewPatientDetails

  /** One argument naming a present key returns its bytes unchanged; an absent key and any other count are errors. */
  lemma ViewReturnsStoredBytes(state: map<string, Bytes>, args: seq<string>)
    ensures var r := ViewPatientDetails(state, args);
      && (r.Success? <==> |args| == 1 && args[0] in state)
      && (r.Success? ==> r.payload == Some(state[args[0]]))
      && (|args| == 1 && args[0] !in state ==> r == Error("Patient details do not exist"))
      && (|args| != 1 ==> r == Error("Wrong input"))
  {
  }

  // ---------------------------------------------------------------- the two appends

  /**
   * `updateFileUploads` on a decodable record: the record under the same key gains exactly one file
   * entry, at the end, holding the given hash (its date and info are not stored); earlier entries,
   * the EHR uploads and the other fields are unchanged, and the written document is returned.
   */
  lemma UpdateFileUploadsAppends(w: World, args: seq<string>, now: Time)
    requires |args| == 3 && GetEhrById(w.state, args[0]).Ok?
    ensures var e := GetEhrById(w.state, args[0]).value;
      var o := UpdateFileUploadsStep(w, args, now);
      && CommitsAt(w, o.world, args[0])
      && o.response == Success(Some(o.world.state[args[0]]))
      && GetEhrById(o.world.state, args[0]).Ok?
      && var e' := GetEhrById(o.world.state, args[0]).value;
      && e'.fileUploads == e.fileUploads + [FileUpload(args[1], ZeroTime, "")]
      && e'.ehrUploads == e.ehrUploads
      && SameDetails(e, e')
  {
    // Dafny can find this proof alone, at several times the cost; these steps keep it cheap.
    var e := GetEhrById(w.state, args[0]).value;
    var a := AppendFile(e, args[1], args[2], now);
    assert Marshallable(a);
    RoundTrip(a);
    ExportFilesAppend(e.fileUploads, FileUpload(args[1], TruncateToMinute(now), args[2]));
    DecodeEncodeStable(w.state[args[0]]);
    ExportedIdempotent(w.state[args[0]].doc);
  }

  /**
   * `createEHR` on a decodable record, when the clock's year can be written: the record gains exactly
   * one EHR entry, at the end, whose diagnosis time is the clock truncated to the minute (the
   * transaction id and prescription are not stored); the rest is unchanged and the written
   * document is returned.
   */
  lemma CreateEhrAppends(w: World, args: seq<string>, now: Time)
    requires |args| == 3 && GetEhrById(w.state, args[0]).Ok? && YearInRange(now)
    ensures var e := GetEhrById(w.state, args[0]).value;
      var o := CreateEhrStep(w, args, now);
      && CommitsAt(w, o.world, args[0])
      && o.response == Success(Some(o.world.state[args[0]]))
      && GetEhrById(o.world.state, args[0]).Ok?
      && var e' := GetEhrById(o.world.state, args[0]).value;
      && e'.ehrUploads == e.ehrUploads + [EhrUpload("", TruncateToMinute(now), "")]
      && e'.fileUploads == e.fileUploads
      && SameDetails(e, e')
  {
    var e := GetEhrById(w.state, args[0]).value;
    var a := AppendEhr(e, args[1], args[2], now);
    assert a.ehrUploads[|e.ehrUploads|].diagnosisTime == TruncateToMinute(now);
    assert Marshallable(a);
    RoundTrip(a);
    ExportEhrsAppend(e.ehrUploads, EhrUpload(args[1], TruncateToMinute(now), args[2]));
    DecodeEncodeStable(w.state[args[0]]);
    ExportedIdempotent(w.state[args[0]].doc);
  }

  /** `createEHR` whose clock year cannot be written fails at marshalling and changes nothing. */
  lemma CreateEhrMarshalFails(w: World, args: seq<string>, now: Time)
    requires |args| == 3 && GetEhrById(w.state, args[0]).Ok? && !YearInRange(now)
    ensures CreateEhrStep(w, args, now) == Outcome(w, Error("error marshalling json" + MarshalTimeError))
  {
  }

  /** A wrong count, an absent key or undecodable bytes make both appends fail with no write and no event. */
  lemma AppendRejects(w: World, args: seq<string>, now: Time)
    requires |args| != 3 || GetEhrById(w.state, args[0]).Err?
    ensures UpdateFileUploadsStep(w, args, now) ==
      Outcome(w, Error(if |args| != 3 then "Wrong input" else GetEhrById(w.state, args[0]).message))
    ensures CreateEhrStep(w, args, now) ==
      Outcome(w, Error(if |args| != 3 then "wrong inout" else GetEhrById(w.state, args[0]).message))
    ensures |args| == 3 && args[0] !in w.state ==>
      UpdateFileUploadsStep(w, args, now).response == Error("EHR does not exist")
  {
  }

  /**
   * The text written by the `hello` invoke ends in the decimal nanosecond of the clock, so it is not
   * a JSON object: appending to it fails to unmarshal.
   */
  lemma AppendAfterHelloWriteFails(w: World, value: string, suffix: string, args: seq<string>, now: Time)
    requires |args| == 3 && args[0] == "hello" && DecimalText(suffix)
    ensures var w' := InvokeHelloStep(w, ["invoke", "hello", value], suffix).world;
      UpdateFileUploadsStep(w', args, now) == Outcome(w', Error("Error unmarshalling JSON"))
  {
  }

  // ---------------------------------------------------------------- appends in sequence

  /** One `updateFileUploads` call's arguments after the record id, with the clock at that call. */
  datatype FileArgs = FileArgs(ipfsHash: string, fileInfo: string, now: Time)

  /** One `createEHR` call's arguments after the record id, with the clock at that call. */
  datatype EhrArgs = EhrArgs(ehrTID: string, prescriptionInfo: string, now: Time)

  /** The ledger after `updateFileUploads(id, …)` for each element of `uploads`, in order. */
  function UploadFiles(w: World, id: string, uploads: seq<FileArgs>): World
    decreases |uploads|
  {
    if uploads == [] then w
    else
      var u := uploads[0];
      UploadFiles(UpdateFileUploadsStep(w, [id, u.ipfsHash, u.fileInfo], u.now).world, id, uploads[1..])
  }

  /** The ledger after `createEHR(id, …)` for each element of `uploads`, in order. */
  function UploadEhrs(w: World, id: string, uploads: seq<EhrArgs>): World
    decreases |uploads|
  {
    if uploads == [] then w
    else
      var u := uploads[0];
      UploadEhrs(CreateEhrStep(w, [id, u.ehrTID, u.prescriptionInfo], u.now).world, id, uploads[1..])
  }

  /** The file entries the store keeps for a sequence of uploads: their hashes, in order. */
  function StoredFiles(uploads: seq<FileArgs>): (r: seq<FileUpload>)
    ensures |r| == |uploads|
    ensures forall i :: 0 <= i < |uploads| ==> r[i] == FileUpload(uploads[i].ipfsHash, ZeroTime, "")
  {
    if uploads == [] then [] else [FileUpload(uploads[0].ipfsHash, ZeroTime, "")] + StoredFiles(uploads[1..])
  }

  /** The EHR entries the store keeps for a sequence of uploads: their minute-truncated times, in order. */
  function StoredEhrs(uploads: seq<EhrArgs>): (r: seq<EhrUpload>)
    ensures |r| == |uploads|
    ensures forall i :: 0 <= i < |uploads| ==> r[i] == EhrUpload("", TruncateToMinute(uploads[i].now), "")
  {
    if uploads == [] then [] else [EhrUpload("", TruncateToMinute(uploads[0].now), "")] + StoredEhrs(uploads[1..])
  }

  /** `e'` is `e` with `files` and `ehrs` appended to its two lists and every other field unchanged. */
  predicate Grows(e: EHR, e': EHR, files: seq<FileUpload>, ehrs: seq<EhrUpload>) {
    && e'.fileUploads == e.fileUploads + files
    && e'.ehrUploads == e.ehrUploads + ehrs
    && SameDetails(e, e')
  }

  /**
   * `w'` holds, under `id`, the record of `w` grown by `files` and `ehrs`; the set of keys is the
   * same and every other key keeps its bytes.
   */
  predicate Extends(w: World, w': World, id: string, files: seq<FileUpload>, ehrs: seq<EhrUpload>) {
    && w'.state.Keys == w.state.Keys
    && (forall k :: k in w.state && k != id ==> w'.state[k] == w.state[k])
    && GetEhrById(w.state, id).Ok?
    && GetEhrById(w'.state, id).Ok?
    && Grows(GetEhrById(w.state, id).value, GetEhrById(w'.state, id).value, files, ehrs)
  }

  lemma ExtendsTransitive(w1: World, w2: World, w3: World, id: string,
                          f1: seq<FileUpload>, e1: seq<EhrUpload>, f2: seq<FileUpload>, e2: seq<EhrUpload>)
    requires Extends(w1, w2, id, f1, e1) && Extends(w2, w3, id, f2, e2)
    ensures Extends(w1, w3, id, f1 + f2, e1 + e2)
  {
  }

  /** The event log of `n` successful writes: `n` copies of "eventInvoke". */
  function Invocations(n: nat): (r: seq<string>)
    ensures |r| == n && forall i :: 0 <= i < n ==> r[i] == EventInvoke
  {
    seq(n, _ => EventInvoke)
  }

  /** One event followed by n - 1 more is n events. */
  lemma EventsPrepend(events: seq<string>, n: nat)
    requires n > 0
    ensures events + [EventInvoke] + Invocations(n - 1) == events + Invocations(n)
  {
  }

  /** N file uploads to a decodable record emit exactly N events, one per call. */
  lemma {:induction false} UploadFilesEvents(w: World, id: string, uploads: seq<FileArgs>)
    requires GetEhrById(w.state, id).Ok?
    decreases |uploads|
    ensures UploadFiles(w, id, uploads).events == w.events + Invocations(|uploads|)
  {
    if uploads != [] {
      var u := uploads[0];
      var args := [id, u.ipfsHash, u.fileInfo];
      UpdateFileUploadsAppends(w, args, u.now);
      var w1 := UpdateFileUploadsStep(w, args, u.now).world;
      var w2 := UploadFiles(w1, id, uploads[1..]);
      assert UploadFiles(w, id, uploads) == w2;
      UploadFilesEvents(w1, id, uploads[1..]);
      assert w2.events == w.events + [EventInvoke] + Invocations(|uploads| - 1);
      EventsPrepend(w.events, |uploads|);
    }
  }

  /** N EHR uploads to a decodable record, every clock year writable, emit exactly N events. */
  lemma {:induction false} UploadEhrsEvents(w: World, id: string, uploads: seq<EhrArgs>)
    requires GetEhrById(w.state, id).Ok?
    requires forall i :: 0 <= i < |uploads| ==> YearInRange(uploads[i].now)
    decreases |uploads|
    ensures UploadEhrs(w, id, uploads).events == w.events + Invocations(|uploads|)
  {
    if uploads != [] {
      var u := uploads[0];
      var args := [id, u.ehrTID, u.prescriptionInfo];
      assert YearInRange(uploads[0].now);
      CreateEhrAppends(w, args, u.now);
      var w1 := CreateEhrStep(w, args, u.now).world;
      var rest := uploads[1..];
      assert forall i :: 0 <= i < |rest| ==> YearInRange(rest[i].now) by {
        forall i | 0 <= i < |rest| ensures YearInRange(rest[i].now) {
          assert rest[i] == uploads[i + 1];
        }
      }
      var w2 := UploadEhrs(w1, id, rest);
      assert UploadEhrs(w, id, uploads) == w2;
      UploadEhrsEvents(w1, id, rest);
      assert w2.events == w.events + [EventInvoke] + Invocations(|uploads| - 1);
      EventsPrepend(w.events, |uploads|);
    }
  }

  lemma UpdateFileUploadsExtends(w: World, args: seq<string>, now: Time)
    requires |args| == 3 && GetEhrById(w.state, args[0]).Ok?
    ensures var w' := UpdateFileUploadsStep(w, args, now).world;
      Extends(w, w', args[0], [FileUpload(args[1], ZeroTime, "")], []) && w'.events == w.events + [EventInvoke]
  {
    UpdateFileUploadsAppends(w, args, now);
  }

  lemma CreateEhrExtends(w: World, args: seq<string>, now: Time)
    requires |args| == 3 && GetEhrById(w.state, args[0]).Ok? && YearInRange(now)
    ensures var w' := CreateEhrStep(w, args, now).world;
      Extends(w, w', args[0], [], [EhrUpload("", TruncateToMinute(now), "")]) && w'.events == w.events + [EventInvoke]
  {
    CreateEhrAppends(w, args, now);
  }

  /**
   * Ordering law: N file uploads to a decodable record extend its file list by exactly N entries,
   * in the order of the calls, and emit N events; nothing else in the record changes.
   */
  lemma {:induction false} UploadFilesInOrder(w: World, id: string, uploads: seq<FileArgs>)
    requires GetEhrById(w.state, id).Ok?
    decreases |uploads|
    ensures Extends(w, UploadFiles(w, id, uploads), id, StoredFiles(uploads), [])
    ensures UploadFiles(w, id, uploads).events == w.events + Invocations(|uploads|)
  {
    UploadFilesEvents(w, id, uploads);
    if uploads == [] {
      var e := GetEhrById(w.state, id).value;
      assert e.fileUploads + [] == e.fileUploads && e.ehrUploads + [] == e.ehrUploads;
    } else {
      var u := uploads[0];
      var args := [id, u.ipfsHash, u.fileInfo];
      UpdateFileUploadsExtends(w, args, u.now);
      var w1 := UpdateFileUploadsStep(w, args, u.now).world;
      assert UploadFiles(w, id, uploads) == UploadFiles(w1, id, uploads[1..]);
      assert StoredFiles(uploads) == [FileUpload(u.ipfsHash, ZeroTime, "")] + StoredFiles(uploads[1..]);
      UploadFilesInOrder(w1, id, uploads[1..]);
      ExtendsTransitive(w, w1, UploadFiles(w1, id, uploads[1..]), id,
        [FileUpload(u.ipfsHash, ZeroTime, "")], [], StoredFiles(uploads[1..]), []);
    }
  }

  /**
   * Ordering law for EHR uploads, when every clock year can be written: N calls extend the EHR list
   * by exactly N entries, in call order, each stamped with its call's minute.
   */
  lemma {:induction false} UploadEhrsInOrder(w: World, id: string, uploads: seq<EhrArgs>)
    requires GetEhrById(w.state, id).Ok?
    requires forall i :: 0 <= i < |uploads| ==> YearInRange(uploads[i].now)
    decreases |uploads|
    ensures Extends(w, UploadEhrs(w, id, uploads), id, [], StoredEhrs(uploads))
    ensures UploadEhrs(w, id, uploads).events == w.events + Invocations(|uploads|)
  {
    UploadEhrsEvents(w, id, uploads);
    if uploads == [] {
      var e := GetEhrById(w.state, id).value;
      assert e.fileUploads + [] == e.fileUploads && e.ehrUploads + [] == e.ehrUploads;
    } else {
      var u := uploads[0];
      var args := [id, u.ehrTID, u.prescriptionInfo];
      assert YearInRange(uploads[0].now);
      CreateEhrExtends(w, args, u.now);
      var w1 := CreateEhrStep(w, args, u.now).world;
      var entry := EhrUpload("", TruncateToMinute(u.now), "");
      var rest := uploads[1..];
      assert forall i :: 0 <= i < |rest| ==> YearInRange(rest[i].now) by {
        forall i | 0 <= i < |rest| ensures YearInRange(rest[i].now) {
          assert rest[i] == uploads[i + 1];
        }
      }
      UploadEhrsInOrder(w1, id, rest);
      ExtendsTransitive(w, w1, UploadEhrs(w1, id, uploads[1..]), id,
        [], [entry], [], StoredEhrs(uploads[1..]));
    }
  }

  /** A freshly created record that then receives N file uploads holds exactly those N hashes, in order. */
  lemma CreateThenUploadFiles(w: World, args: seq<string>, txId: string, uploads: seq<FileArgs>)
    requires |args| == 6 && DateLayout.ParseDate(args[4]).Some?
    ensures var w1 := GetPatientDetailsStep(w, args, txId).world;
      var w' := UploadFiles(w1, txId, uploads);
      && GetEhrById(w'.state, txId).Ok?
      && GetEhrById(w'.state, txId).value.fileUploads == StoredFiles(uploads)
      && GetEhrById(w'.state, txId).value.ehrUploads == []
  {
    GetPatientDetailsCreates(w, args, txId);
    UploadFilesInOrder(GetPatientDetailsStep(w, args, txId).world, txId, uploads);
  }

  // ---------------------------------------------------------------- dispatch

  /** Any name other than the five routed ones and "invoke" fails with no state change. */
  lemma InvokeRejectsUnknownName(w: World, name: string, args: seq<string>, txId: string, now: Time, suffix: string)
    requires name !in Routed && name != "invoke"
    ensures InvokeStep(w, name, args, txId, now, suffix) == Outcome(w, Error("Unknown function call"))
  {
  }

  /** The web front end's "createPatient" is not a routed name. */
  lemma CreatePatientNotRouted(w: World, args: seq<string>, txId: string, now: Time, suffix: string)
    ensures InvokeStep(w, "createPatient", args, txId, now, suffix) == Outcome(w, Error("Unknown function call"))
  {
  }

  /** "invoke" whose first argument is neither "query" nor "invoke" fails with no state change. */
  lemma InvokeRejectsUnknownAction(w: World, args: seq<string>, txId: string, now: Time, suffix: string)
    requires |args| >= 1 && args[0] != "query" && args[0] != "invoke"
    ensures InvokeStep(w, "invoke", args, txId, now, suffix) == Outcome(w, Error("Unknown action, check the first argument"))
  {
  }

  /** Reading operations never change the ledger: view, query and the undefined "getEHR". */
  lemma ReadsLeaveLedger(w: World, args: seq<string>, txId: string, now: Time, suffix: string)
    ensures InvokeStep(w, "viewPatientDetails", args, txId, now, suffix).world == w
    ensures InvokeStep(w, "getEHR", args, txId, now, suffix) == Outcome(w, Unsupported("getEHR"))
    ensures |args| >= 1 && args[0] == "query" ==> InvokeStep(w, "invoke", args, txId, now, suffix).world == w
  {
  }

  /** `["query", "hello", …]` returns the bytes under "hello" (nil when absent); other queries are errors. */
  lemma QueryReadsHello(state: map<string, Bytes>, args: seq<string>)
    ensures |args| < 2 ==> Query(state, args) == Error(Insufficient)
    ensures |args| >= 2 && args[1] == "hello" && "hello" in state ==> Query(state, args) == Success(Some(state["hello"]))
    ensures |args| >= 2 && args[1] == "hello" && "hello" !in state ==> Query(state, args) == Success(None)
    ensures |args| >= 2 && args[1] != "hello" ==> Query(state, args).Error?
  {
  }

  /**
   * Every call ends in at most one write: the ledger is unchanged, or exactly one key is written and
   * one event emitted. A call that does not succeed leaves the ledger as it was.
   */
  lemma InvokeWritesAtMostOnce(w: World, name: string, args: seq<string>, txId: string, now: Time, suffix: string)
    ensures var o := InvokeStep(w, name, args, txId, now, suffix);
      && (o.world == w || exists key :: CommitsAt(w, o.world, key))
      && (!o.response.Success? ==> o.world == w)
  {
    var o := InvokeStep(w, name, args, txId, now, suffix);
    if name == "getPatientDetails" && o.world != w {
      GetPatientDetailsCreates(w, args, txId);
      assert CommitsAt(w, o.world, txId);
    } else if name == "updateFileUploads" && o.world != w {
      UpdateFileUploadsAppends(w, args, now);
      assert CommitsAt(w, o.world, args[0]);
    } else if name == "createEHR" && o.world != w {
      if YearInRange(now) {
        CreateEhrAppends(w, args, now);
        assert CommitsAt(w, o.world, args[0]);
      } else {
        CreateEhrMarshalFails(w, args, now);
      }
    } else if name == "invoke" && o.world != w {
      assert CommitsAt(w, o.world, "hello");
    }
  }

  /**
   * Record history is kept by every call: a decodable record under a key other than the call's
   * transaction id and "hello" is still decodable afterwards, with the same id and details, and
   * its two upload lists have only grown at their ends.
   */
  lemma InvokeKeepsHistory(w: World, name: string, args: seq<string>, txId: string, now: Time, suffix: string, k: string)
    requires k != txId && k != "hello" && GetEhrById(w.state, k).Ok?
    ensures var o := InvokeStep(w, name, args, txId, now, suffix);
      && GetEhrById(o.world.state, k).Ok?
      && exists fs, es :: Grows(GetEhrById(w.state, k).value, GetEhrById(o.world.state, k).value, fs, es)
  {
    var o := InvokeStep(w, name, args, txId, now, suffix);
    var e := GetEhrById(w.state, k).value;
    if name == "updateFileUploads" && o.world != w && args[0] == k {
      UpdateFileUploadsAppends(w, args, now);
      assert Grows(e, GetEhrById(o.world.state, k).value, [FileUpload(args[1], ZeroTime, "")], []);
    } else if name == "createEHR" && o.world != w && args[0] == k {
      if YearInRange(now) {
        CreateEhrAppends(w, args, now);
        assert Grows(e, GetEhrById(o.world.state, k).value, [], [EhrUpload("", TruncateToMinute(now), "")]);
      } else {
        CreateEhrMarshalFails(w, args, now);
      }
    } else {
      InvokeWritesAtMostOnce(w, name, args, txId, now, suffix);
      assert o.world.state[k] == w.state[k];
      assert e.fileUploads + [] == e.fileUploads && e.ehrUploads + [] == e.ehrUploads;
      assert Grows(e, GetEhrById(o.world.state, k).value, [], []);
    }
  }

  /**
   * "hello" is the exception: after `Init`, a file upload to "hello" gives a record with one entry;
   * the `hello` invoke then replaces it with text that no longer decodes, and `Init` again resets it
   * to the empty placeholder.
   */
  lemma HelloHistoryLost(w: World, now: Time, ipfsHash: string, fileInfo: string, value: string, suffix: string)
    requires YearInRange(now) && DecimalText(suffix)
    ensures var w1 := InitStep(w, "init", now).world;
      var w2 := UpdateFileUploadsStep(w1, ["hello", ipfsHash, fileInfo], now).world;
      && GetEhrById(w2.state, "hello").Ok?
      && |GetEhrById(w2.state, "hello").value.fileUploads| == 1
      && GetEhrById(InvokeHelloStep(w2, ["invoke", "hello", value], suffix).world.state, "hello").Err?
      && GetEhrById(InitStep(w2, "init", now).world.state, "hello") == Ok(Placeholder(now))
  {
    var w1 := InitStep(w, "init", now).world;
    RoundTrip(Placeholder(now));
    UpdateFileUploadsAppends(w1, ["hello", ipfsHash, fileInfo], now);
  }

  // ---------------------------------------------------------------- the `invoke` argument guard

  /** As written, `["invoke", "hello"]` passes the guard `len(args) < 2` and then reads `args[2]`. */
  lemma InvokeAsWrittenReadsPastEnd(w: World, suffix: string)
    ensures InvokeHelloAsWritten(w, ["invoke", "hello"], suffix) == IndexOutOfRange(2, 2)
  {
  }

  /** Apart from that two-argument case, the code as written and the corrected guard agree. */
  lemma InvokeAsWrittenAgreesElsewhere(w: World, args: seq<string>, suffix: string)
    requires |args| != 2
    ensures InvokeHelloAsWritten(w, args, suffix) == Returned(InvokeHelloStep(w, args, suffix))
  {
  }

  /**
   * With the corrected guard, a call with fewer than three arguments is refused as insufficient,
   * and the ledger changes exactly for `["invoke", "hello", v]`, which writes `v + suffix` under "hello".
   */
  lemma InvokeHelloGuarded(w: World, args: seq<string>, suffix: string)
    ensures |args| < 3 ==> InvokeHelloStep(w, args, suffix) == Outcome(w, Error(Insufficient))
    ensures InvokeHelloStep(w, args, suffix).world != w <==> |args| == 3 && args[1] == "hello"
    ensures |args| == 3 && args[1] == "hello" ==>
      InvokeHelloStep(w, args, suffix) == Outcome(Commit(w, "hello", Text(args[2] + suffix)), Success(None))
  {
  }
}
