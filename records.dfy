/**
 * The chaincode's record types and their JSON form. `encoding/json` writes and reads
 * only exported struct fields, so the lower-case fields of `f_uploads` and
 * `ehr_uploads` (`uploadedDate`, `fileInfo`, `ehrTID`, `prescriptionInfo`) are lost on
 * every store round-trip despite their JSON tags. The codec is otherwise abstract:
 * `Json(d)` stands for the bytes `json.Marshal` produces for `d`.
 */
module Records {
  import opened Basics
  import opened Clock

  /** `f_uploads`: only `IPFS_fHash` is exported. */
  datatype FileUpload = FileUpload(ipfsHash: string, uploadedDate: Time, fileInfo: string)

  /** `ehr_uploads`: only `DiagnosisTime` is exported. */
  datatype EhrUpload = EhrUpload(ehrTID: string, diagnosisTime: Time, prescriptionInfo: string)

  /** `EHR`: every field is exported. A nil slice and an empty one are both `[]`. */
  datatype EHR = EHR(
    id: string,
    firstname: string,
    lastname: string,
    contactNo: string,
    gender: string,
    birthday: Time,
    address: string,
    fileUploads: seq<FileUpload>,
    ehrUploads: seq<EhrUpload>)

  /** A ledger value: the JSON document of an EHR, or raw text bytes that are not a JSON object. */
  datatype Bytes = Json(doc: EHR) | Text(text: string)

  /** What survives of a file upload: the hash; the other fields read back as zero values. */
  function ExportFile(f: FileUpload): FileUpload {
    FileUpload(f.ipfsHash, ZeroTime, "")
  }

  /** What survives of an EHR upload: the diagnosis time; the other fields read back as "". */
  function ExportEhr(u: EhrUpload): EhrUpload {
    EhrUpload("", u.diagnosisTime, "")
  }

  function ExportFiles(s: seq<FileUpload>): (r: seq<FileUpload>)
    ensures |r| == |s|
    ensures forall i :: 0 <= i < |s| ==> r[i] == ExportFile(s[i])
  {
    if s == [] then [] else ExportFiles(s[..|s| - 1]) + [ExportFile(s[|s| - 1])]
  }

  function ExportEhrs(s: seq<EhrUpload>): (r: seq<EhrUpload>)
    ensures |r| == |s|
    ensures forall i :: 0 <= i < |s| ==> r[i] == ExportEhr(s[i])
  {
    if s == [] then [] else ExportEhrs(s[..|s| - 1]) + [ExportEhr(s[|s| - 1])]
  }

  /** The record as `json.Unmarshal` rebuilds it from `json.Marshal`'s output. */
  function Exported(e: EHR): (d: EHR)
    ensures d.id == e.id && d.firstname == e.firstname && d.lastname == e.lastname
    ensures d.contactNo == e.contactNo && d.gender == e.gender
    ensures d.birthday == e.birthday && d.address == e.address
    ensures |d.fileUploads| == |e.fileUploads| && |d.ehrUploads| == |e.ehrUploads|
    ensures forall i :: 0 <= i < |e.fileUploads| ==>
      d.fileUploads[i].ipfsHash == e.fileUploads[i].ipfsHash &&
      d.fileUploads[i].uploadedDate == ZeroTime && d.fileUploads[i].fileInfo == ""
    ensures forall i :: 0 <= i < |e.ehrUploads| ==>
      d.ehrUploads[i].diagnosisTime == e.ehrUploads[i].diagnosisTime &&
      d.ehrUploads[i].ehrTID == "" && d.ehrUploads[i].prescriptionInfo == ""
  {
    e.(fileUploads := ExportFiles(e.fileUploads), ehrUploads := ExportEhrs(e.ehrUploads))
  }

  /**
   * `json.Marshal` succeeds: `Time.MarshalJSON` refuses years outside 0..9999, and the
   * exported times are the birthday and every diagnosis time.
   */
  predicate Marshallable(e: EHR) {
    && YearInRange(e.birthday)
    && forall i :: 0 <= i < |e.ehrUploads| ==> YearInRange(e.ehrUploads[i].diagnosisTime)
  }

  /** The message `json.Marshal` reports for such a time, prefixed by the encoder. */
  const MarshalTimeError := "json: error calling MarshalJSON for type time.Time: Time.MarshalJSON: year outside of range [0,9999]"

  /** `json.Marshal(e)`: `None` is the marshalling error. */
  function Encode(e: EHR): (r: Option<Bytes>)
    ensures r.Some? <==> Marshallable(e)
    ensures r.Some? ==> r.value.Json?
  {
    if Marshallable(e) then Some(Json(Exported(e))) else None
  }

  /**
   * `json.Unmarshal(b, &ehr)` into a zero `EHR`: `None` is the unmarshalling error.
   * Text bytes are never an EHR object; a document only ever holds what `Encode` wrote.
   */
  function Decode(b: Bytes): (r: Option<EHR>)
    ensures r.Some? ==> b.Json? && Marshallable(r.value)
  {
    match b
    case Json(d) => if Marshallable(d) then Some(Exported(d)) else None
    case Text(_) => None
  }

  /** `addfileuploads`: a new file entry at the end, stamped with `now` truncated to the minute. */
  function AppendFile(e: EHR, ipfsHash: string, fileInfo: string, now: Time): (r: EHR)
    ensures |r.fileUploads| == |e.fileUploads| + 1 && r.fileUploads[..|e.fileUploads|] == e.fileUploads
    ensures var f := r.fileUploads[|e.fileUploads|];
      f.ipfsHash == ipfsHash && f.fileInfo == fileInfo && AtMinute(f.uploadedDate) && SameMinute(f.uploadedDate, now)
    ensures r.(fileUploads := e.fileUploads) == e
    ensures Marshallable(r) <==> Marshallable(e)
  {
    e.(fileUploads := e.fileUploads + [FileUpload(ipfsHash, TruncateToMinute(now), fileInfo)])
  }

  /** `addehruploads`: a new EHR entry at the end, stamped with `now` truncated to the minute. */
  function AppendEhr(e: EHR, ehrTID: string, prescriptionInfo: string, now: Time): (r: EHR)
    ensures |r.ehrUploads| == |e.ehrUploads| + 1 && r.ehrUploads[..|e.ehrUploads|] == e.ehrUploads
    ensures var u := r.ehrUploads[|e.ehrUploads|];
      u.ehrTID == ehrTID && u.prescriptionInfo == prescriptionInfo && AtMinute(u.diagnosisTime) && SameMinute(u.diagnosisTime, now)
    ensures r.(ehrUploads := e.ehrUploads) == e
    ensures Marshallable(r) <==> Marshallable(e) && YearInRange(now)
  {
    e.(ehrUploads := e.ehrUploads + [EhrUpload(ehrTID, TruncateToMinute(now), prescriptionInfo)])
  }

  /** Exporting twice loses nothing more. */
  lemma ExportedIdempotent(e: EHR)
    ensures Exported(Exported(e)) == Exported(e)
  {
  }

  /** Store round-trip: what is read back is exactly the exported part of what was written. */
  lemma RoundTrip(e: EHR)
    requires Marshallable(e)
    ensures Encode(e).Some? && Decode(Encode(e).value) == Some(Exported(e))
  {
    ExportedIdempotent(e);
  }

  /** A decoded record re-encodes to a document that decodes to the same record. */
  lemma DecodeEncodeStable(b: Bytes)
    requires Decode(b).Some?
    ensures Encode(Decode(b).value).Some?
    ensures Decode(Encode(Decode(b).value).value) == Decode(b)
  {
    RoundTrip(Decode(b).value);
    ExportedIdempotent(b.doc);
  }

  /** Exporting commutes with appending one file entry. */
  lemma ExportFilesAppend(s: seq<FileUpload>, f: FileUpload)
    ensures ExportFiles(s + [f]) == ExportFiles(s) + [ExportFile(f)]
  {
  }

  /** Exporting commutes with appending one EHR entry. */
  lemma ExportEhrsAppend(s: seq<EhrUpload>, u: EhrUpload)
    ensures ExportEhrs(s + [u]) == ExportEhrs(s) + [ExportEhr(u)]
  {
  }
}
