/**
 * The chaincode as it runs: a ledger object whose state map and event log the
 * handlers change step by step (read, decode, append in place, encode, put,
 * set event), and the decoded record object whose upload slices the append
 * methods extend. Each handler is proved to end in the ledger and response
 * that the matching `Engine` step describes.
 */
module Chaincode {
  import opened Basics
  import opened Clock
  import opened Records
  import opened Engine
  import DateLayout

  /** A decoded `*EHR`; `addfileuploads` and `addehruploads` append to its slices in place. */
  class EhrRecord {
    var id: string
    var firstname: string
    var lastname: string
    var contactNo: string
    var gender: string
    var birthday: Time
    var address: string
    var fileUploads: seq<FileUpload>
    var ehrUploads: seq<EhrUpload>

    /** The record's current contents as a value. */
    function Value(): EHR
      reads this
    {
      EHR(id, firstname, lastname, contactNo, gender, birthday, address, fileUploads, ehrUploads)
    }

    /** The struct `json.Unmarshal` fills in. */
    constructor (e: EHR)
      ensures Value() == e
    {
      id, firstname, lastname, contactNo, gender := e.id, e.firstname, e.lastname, e.contactNo, e.gender;
      birthday, address := e.birthday, e.address;
      fileUploads, ehrUploads := e.fileUploads, e.ehrUploads;
    }

    /** `addfileuploads`: append one file entry stamped with the clock reading cut to the minute. */
    method AddFileUploads(ipfsHash: string, fileInfo: string, now: Time)
      modifies this
      ensures Value() == AppendFile(old(Value()), ipfsHash, fileInfo, now)
      ensures |fileUploads| == |old(fileUploads)| + 1
      ensures AtMinute(fileUploads[|old(fileUploads)|].uploadedDate)
      ensures SameMinute(fileUploads[|old(fileUploads)|].uploadedDate, now)
    {
      var stamp := Time(now.year, now.month, now.day, now.hour, now.minute, 0, 0);
      fileUploads := fileUploads + [FileUpload(ipfsHash, stamp, fileInfo)];
    }

    /** `addehruploads`: append one EHR entry stamped with the clock reading cut to the minute. */
    method AddEhrUploads(ehrTID: string, prescriptionInfo: string, now: Time)
      modifies this
      ensures Value() == AppendEhr(old(Value()), ehrTID, prescriptionInfo, now)
      ensures |ehrUploads| == |old(ehrUploads)| + 1
      ensures AtMinute(ehrUploads[|old(ehrUploads)|].diagnosisTime)
      ensures SameMinute(ehrUploads[|old(ehrUploads)|].diagnosisTime, now)
    {
      var stamp := Time(now.year, now.month, now.day, now.hour, now.minute, 0, 0);
      ehrUploads := ehrUploads + [EhrUpload(ehrTID, stamp, prescriptionInfo)];
    }
  }

  /** The ledger state a chaincode invocation sees through its stub, and the events it sets. */
  class Ledger {
    var state: map<string, Bytes>
    var events: seq<string>

    constructor (initial: map<string, Bytes>)
      ensures state == initial && events == []
    {
      state, events := initial, [];
    }

    function Snapshot(): World
      reads this
    {
      World(state, events)
    }

    /** `stub.GetState`: the stored bytes, or nil for an absent key. */
    method GetState(key: string) returns (value: Option<Bytes>)
      ensures value == if key in state then Some(state[key]) else None
    {
      value := if key in state then Some(state[key]) else None;
    }

    /** `stub.PutState`. */
    method PutState(key: string, value: Bytes)
      modifies this
      ensures state == old(state)[key := value] && events == old(events)
    {
      state := state[key := value];
    }

    /** `stub.SetEvent(name, []byte{})`. */
    method SetEvent(name: string)
      modifies this
      ensures events == old(events) + [name] && state == old(state)
    {
      events := events + [name];
    }

    /** `getEHRbyID`: a fresh record object decoded from the stored bytes. */
    method GetEhrById(id: string) returns (r: Result<EhrRecord>)
      ensures r.Ok? <==> Engine.GetEhrById(state, id).Ok?
      ensures r.Ok? ==> fresh(r.value) && r.value.Value() == Engine.GetEhrById(state, id).value
      ensures r.Err? ==> r.message == Engine.GetEhrById(state, id).message
    {
      var bytes := GetState(id);
      if bytes.None? {
        return Err("EHR does not exist");
      }
      var decoded := Decode(bytes.value);
      if decoded.None? {
        return Err("Error unmarshalling JSON");
      }
      var ehr := new EhrRecord(decoded.value);
      return Ok(ehr);
    }

    /** `Init`. */
    method Init(name: string, now: Time) returns (r: Response)
      modifies this
      ensures Outcome(Snapshot(), r) == InitStep(old(Snapshot()), name, now)
    {
      if name != "init" {
        return Error("Unknown function call");
      }
      var behr := Encode(Placeholder(now));
      if behr.None? {
        return Error("error marshalling EHR to Json");
      }
      PutState("hello", behr.value);
      return Success(None);
    }

    /** `Invoke`: route the call; reading handlers are functions of the state. */
    method Invoke(name: string, args: seq<string>, txId: string, now: Time, suffix: string) returns (r: Response)
      modifies this
      ensures Outcome(Snapshot(), r) == InvokeStep(old(Snapshot()), name, args, txId, now, suffix)
    {
      if name == "getPatientDetails" {
        r := GetPatientDetails(args, txId);
      } else if name == "viewPatientDetails" {
        r := ViewPatientDetails(state, args);
      } else if name == "updateFileUploads" {
        r := UpdateFileUploads(args, now);
      } else if name == "createEHR" {
        r := CreateEhr(args, now);
      } else if name == "getEHR" {
        r := Unsupported(name);
      } else if name != "invoke" {
        r := Error("Unknown function call");
      } else if |args| < 1 {
        r := Error(Insufficient);
      } else if args[0] == "query" {
        r := Query(state, args);
      } else if args[0] == "invoke" {
        r := InvokeHello(args, suffix);
      } else {
        r := Error("Unknown action, check the first argument");
      }
    }

    /** `invoke`, with the argument guard corrected to three arguments. */
    method InvokeHello(args: seq<string>, suffix: string) returns (r: Response)
      modifies this
      ensures Outcome(Snapshot(), r) == InvokeHelloStep(old(Snapshot()), args, suffix)
    {
      if |args| < 3 {
        return Error(Insufficient);
      }
      var key, value := args[1], args[2];
      if key == "hello" && |args| == 3 {
        PutState(key, Text(value + suffix));
        SetEvent(EventInvoke);
        return Success(None);
      }
      return Error("Unknown invoke action, check the second argument.");
    }

    /** `getPatientDetails`. */
    method GetPatientDetails(args: seq<string>, txId: string) returns (r: Response)
      modifies this
      ensures Outcome(Snapshot(), r) == GetPatientDetailsStep(old(Snapshot()), args, txId)
    {
      if |args| != 6 {
        return Error("Wrong input");
      }
      var birthday := DateLayout.ParseDate(args[4]);
      if birthday.None? {
        return Error("Error parsing birthday");
      }
      var ehr := NewPatient(txId, args, birthday.value);
      var jsonEhr := Encode(ehr);
      if jsonEhr.None? {
        return Error("Error marshalling to JSON");
      }
      PutState(txId, jsonEhr.value);
      SetEvent(EventInvoke);
      return Success(Some(Text(txId)));
    }

    /** `updateFileUploads`: read, append a file entry in place, write back under the same key. */
    method UpdateFileUploads(args: seq<string>, now: Time) returns (r: Response)
      modifies this
      ensures Outcome(Snapshot(), r) == UpdateFileUploadsStep(old(Snapshot()), args, now)
    {
      if |args| != 3 {
        return Error("Wrong input");
      }
      var ehrId := args[0];
      var found := GetEhrById(ehrId);
      if found.Err? {
        return Error(found.message);
      }
      var ehr := found.value;
      ehr.AddFileUploads(args[1], args[2], now);
      var jsonEhr := Encode(ehr.Value());
      if jsonEhr.None? {
        return Error("error marshalling json" + MarshalTimeError);
      }
      PutState(ehrId, jsonEhr.value);
      SetEvent(EventInvoke);
      return Success(jsonEhr);
    }

    /** `createEHR`: read, append an EHR entry in place, write back under the same key. */
    method CreateEhr(args: seq<string>, now: Time) returns (r: Response)
      modifies this
      ensures Outcome(Snapshot(), r) == CreateEhrStep(old(Snapshot()), args, now)
    {
      if |args| != 3 {
        return Error("wrong inout");
      }
      var ehrId := args[0];
      var found := GetEhrById(ehrId);
      if found.Err? {
        return Error(found.message);
      }
      var ehr := found.value;
      ehr.AddEhrUploads(args[1], args[2], now);
      var jsonEhr := Encode(ehr.Value());
      if jsonEhr.None? {
        return Error("error marshalling json" + MarshalTimeError);
      }
      PutState(ehrId, jsonEhr.value);
      SetEvent(EventInvoke);
      return Success(jsonEhr);
    }
  }
}
