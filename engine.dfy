/**
 * The chaincode's operations as functions of the ledger: a state map from key to
 * stored bytes and the log of emitted events. Each step gives the ledger after
 * the call and the response. The transaction id, the clock reading and the
 * nanosecond suffix of the `hello` write are inputs.
 */
module Engine {
  import opened Basics
  import opened Clock
  import opened Records
  import DateLayout

  /** `pb.Response`: `shim.Success(payload)` (a nil payload is `None`) or `shim.Error(message)`. */
  datatype Response =
    | Success(payload: Option<Bytes>)
    | Error(message: string)
    | Unsupported(name: string)  // a routed name whose handler is not defined in the chaincode

  /** The ledger state the chaincode sees, and the events it has set, oldest first. */
  datatype World = World(state: map<string, Bytes>, events: seq<string>)

  datatype Outcome = Outcome(world: World, response: Response)

  const EventInvoke := "eventInvoke"
  const Insufficient := "The number of arguments is insufficient."

  /** `PutState(key, b)` followed by `SetEvent("eventInvoke", …)`. */
  function Commit(w: World, key: string, b: Bytes): (w': World)
    ensures w'.state.Keys == w.state.Keys + {key} && w'.state[key] == b
    ensures forall k :: k in w.state && k != key ==> w'.state[k] == w.state[k]
    ensures w'.events == w.events + [EventInvoke]
  {
    World(w.state[key := b], w.events + [EventInvoke])
  }

  /** The placeholder record `Init` writes; its birthday is the clock reading. */
  function Placeholder(now: Time): (r: EHR)
    ensures Marshallable(r) <==> YearInRange(now)
    ensures Exported(r) == r && r.birthday == now
  {
    EHR("ID", "firstname", "lastname", "contactNum", "gender", now, "address", [], [])
  }

  /** `Init`: only the name "init" is accepted; it writes the placeholder under "hello" and emits no event. */
  function InitStep(w: World, name: string, now: Time): (o: Outcome)
    ensures o.response.Success? <==> name == "init" && YearInRange(now)
    ensures o.response.Success? ==>
      o.world == World(w.state["hello" := Json(Placeholder(now))], w.events) && o.response.payload == None
    ensures !o.response.Success? ==> o.world == w
  {
    if name != "init" then Outcome(w, Error("Unknown function call"))
    else match Encode(Placeholder(now))
      case None => Outcome(w, Error("error marshalling EHR to Json"))
      case Some(b) => Outcome(World(w.state["hello" := b], w.events), Success(None))
  }

  /** The record `getPatientDetails` builds: the id is the transaction id, the fields are the arguments. */
  function NewPatient(txId: string, args: seq<string>, birthday: Time): (r: EHR)
    requires |args| == 6
    ensures Marshallable(r) <==> YearInRange(birthday)
    ensures Exported(r) == r && r.id == txId
  {
    EHR(txId, args[0], args[1], args[2], args[3], birthday, args[5], [], [])
  }

  /** `getPatientDetails`: six positional arguments, the fifth a "2006-01-02" date. */
  function GetPatientDetailsStep(w: World, args: seq<string>, txId: string): (o: Outcome)
    ensures o.response.Success? <==> |args| == 6 && DateLayout.ParseDate(args[4]).Some?
    ensures o.response.Success? ==>
      && o.response.payload == Some(Text(txId))
      && o.world.state == w.state[txId := Json(NewPatient(txId, args, DateLayout.ParseDate(args[4]).value))]
      && o.world.events == w.events + [EventInvoke]
    ensures !o.response.Success? ==> o.world == w
  {
    if |args| != 6 then Outcome(w, Error("Wrong input"))
    else match DateLayout.ParseDate(args[4])
      case None => Outcome(w, Error("Error parsing birthday"))
      case Some(birthday) =>
        match Encode(NewPatient(txId, args, birthday))
        case None => Outcome(w, Error("Error marshalling to JSON"))
        case Some(b) => Outcome(Commit(w, txId, b), Success(Some(Text(txId))))
  }

  /** `viewPatientDetails`: the stored bytes of the one key given, unchanged. */
  function ViewPatientDetails(state: map<string, Bytes>, args: seq<string>): (r: Response)
    ensures r.Success? <==> |args| == 1 && args[0] in state
    ensures r.Success? ==> r.payload == Some(state[args[0]])
    ensures !r.Success? ==> r.Error?
  {
    if |args| != 1 then Error("Wrong input")
    else if args[0] !in state then Error("Patient details do not exist")
    else Success(Some(state[args[0]]))
  }

  /** `getEHRbyID`: look the key up and decode the stored document. */
  function GetEhrById(state: map<string, Bytes>, id: string): (r: Result<EHR>)
    ensures r.Ok? <==> id in state && Decode(state[id]).Some?
    ensures r.Ok? ==> Some(r.value) == Decode(state[id])
    ensures r.Err? ==> r.message == (if id in state then "Error unmarshalling JSON" else "EHR does not exist")
  {
    if id !in state then Err("EHR does not exist")
    else match Decode(state[id])
      case None => Err("Error unmarshalling JSON")
      case Some(e) => Ok(e)
  }

  /** The read-modify-write shared by both append operations, after the argument count check. */
  function AppendStep(w: World, id: string, append: EHR -> EHR): (o: Outcome)
    ensures o.response.Success? <==> GetEhrById(w.state, id).Ok? && Marshallable(append(GetEhrById(w.state, id).value))
    ensures o.response.Success? ==>
      && o.response.payload.Some?
      && o.world.state == w.state[id := o.response.payload.value]
      && o.world.events == w.events + [EventInvoke]
      && Some(o.response.payload.value) == Encode(append(GetEhrById(w.state, id).value))
    ensures !o.response.Success? ==> o.world == w && o.response.Error?
  {
    match GetEhrById(w.state, id)
    case Err(m) => Outcome(w, Error(m))
    case Ok(e) =>
      match Encode(append(e))
      case None => Outcome(w, Error("error marshalling json" + MarshalTimeError))
      case Some(b) => Outcome(Commit(w, id, b), Success(Some(b)))
  }

  /** `updateFileUploads(id, hash, info)`: appends to `FileUploads`. */
  function UpdateFileUploadsStep(w: World, args: seq<string>, now: Time): (o: Outcome)
    ensures o.response.Success? <==> |args| == 3 && GetEhrById(w.state, args[0]).Ok?
    ensures !o.response.Success? ==> o.world == w
  {
    if |args| != 3 then Outcome(w, Error("Wrong input"))
    else AppendStep(w, args[0], e => AppendFile(e, args[1], args[2], now))
  }

  /** `createEHR(id, ehrTID, prescriptionInfo)`: despite its name, appends to `EhrUploads`. */
  function CreateEhrStep(w: World, args: seq<string>, now: Time): (o: Outcome)
    ensures o.response.Success? <==> |args| == 3 && GetEhrById(w.state, args[0]).Ok? && YearInRange(now)
    ensures !o.response.Success? ==> o.world == w
  {
    if |args| != 3 then Outcome(w, Error("wrong inout"))
    else AppendStep(w, args[0], e => AppendEhr(e, args[1], args[2], now))
  }

  /** `query`: the only query is `["query", "hello"]`, which returns the bytes under "hello" (nil when absent). */
  function Query(state: map<string, Bytes>, args: seq<string>): (r: Response)
    ensures r.Success? <==> |args| >= 2 && args[1] == "hello"
    ensures r.Success? ==> (r.payload.Some? <==> "hello" in state)
    ensures r.Success? && r.payload.Some? ==> r.payload.value == state["hello"]
  {
    if |args| < 2 then Error(Insufficient)
    else if args[1] == "hello" then Success(if "hello" in state then Some(state["hello"]) else None)
    else Error("Unknown query action, check the second argument.")
  }

  /**
   * `invoke` with the argument guard corrected to three arguments: `["invoke", "hello", v]`
   * writes the text `v + suffix` under "hello", where `suffix` is the decimal nanosecond of
   * the clock; every other shape is refused.
   */
  function InvokeHelloStep(w: World, args: seq<string>, suffix: string): (o: Outcome)
    ensures o.response.Success? <==> |args| == 3 && args[1] == "hello"
    ensures o.response.Success? ==>
      && o.response.payload == None
      && o.world.state == w.state["hello" := Text(args[2] + suffix)]
      && o.world.events == w.events + [EventInvoke]
    ensures !o.response.Success? ==> o.world == w
  {
    if |args| < 3 then Outcome(w, Error(Insufficient))
    else if args[1] == "hello" && |args| == 3 then Outcome(Commit(w, "hello", Text(args[2] + suffix)), Success(None))
    else Outcome(w, Error("Unknown invoke action, check the second argument."))
  }

  /** What `strconv.FormatInt` writes for a non-negative number: one or more decimal digits. */
  predicate DecimalText(s: string) {
    |s| > 0 && forall i :: 0 <= i < |s| ==> DateLayout.IsDigit(s[i])
  }

  /** How Go evaluates `invoke` as written: either it returns, or `args[2]` is out of range and it panics. */
  datatype Evaluation = Returned(outcome: Outcome) | IndexOutOfRange(index: int, length: int)

  /** `invoke` as written: the guard is `len(args) < 2`, yet `args[2]` is read before anything else. */
  function InvokeHelloAsWritten(w: World, args: seq<string>, suffix: string): (r: Evaluation)
    ensures r.IndexOutOfRange? <==> |args| == 2
    ensures r.IndexOutOfRange? ==> r.index == r.length == 2
    ensures |args| != 2 ==> r == Returned(InvokeHelloStep(w, args, suffix))
  {
    if |args| < 2 then Returned(Outcome(w, Error(Insufficient)))
    else if |args| < 3 then IndexOutOfRange(2, |args|)
    else if args[1] == "hello" && |args| == 3 then Returned(Outcome(Commit(w, "hello", Text(args[2] + suffix)), Success(None)))
    else Returned(Outcome(w, Error("Unknown invoke action, check the second argument.")))
  }

  /** The five names `Invoke` routes to a handler. */
  const Routed := {"getPatientDetails", "viewPatientDetails", "updateFileUploads", "createEHR", "getEHR"}

  /** `Invoke`: route by function name, then `invoke` sub-dispatches on its first argument. */
  function InvokeStep(w: World, name: string, args: seq<string>, txId: string, now: Time, suffix: string): (o: Outcome)
    ensures !o.response.Success? ==> o.world == w
    ensures o.world != w ==> name in {"getPatientDetails", "updateFileUploads", "createEHR", "invoke"}
    ensures o.response.Unsupported? <==> name == "getEHR"
  {
    if name == "getPatientDetails" then GetPatientDetailsStep(w, args, txId)
    else if name == "viewPatientDetails" then Outcome(w, ViewPatientDetails(w.state, args))
    else if name == "updateFileUploads" then UpdateFileUploadsStep(w, args, now)
    else if name == "createEHR" then CreateEhrStep(w, args, now)
    else if name == "getEHR" then Outcome(w, Unsupported(name))
    else if name != "invoke" then Outcome(w, Error("Unknown function call"))
    else if |args| < 1 then Outcome(w, Error(Insufficient))
    else if args[0] == "query" then Outcome(w, Query(w.state, args))
    else if args[0] == "invoke" then InvokeHelloStep(w, args, suffix)
    else Outcome(w, Error("Unknown action, check the first argument"))
  }
}
