/**
 * The resident portal: the logged-in resident's display name, their own
 * requests, and the request form (type, purpose, optional valid-ID file)
 * whose submission adds a Pending request to the data provider.
 */
module Portal {
  import opened Options
  import opened Text
  import opened Seqs
  import opened Barangay
  import opened DataStore

  /** Non-empty and neither starting nor ending with white space. */
  predicate Bounded(s: string) {
    s != [] && !IsSpace(s[0]) && !IsSpace(s[|s| - 1])
  }

  /**
   * `${first} ${middle || ''} ${last}`.trim(): the name shown and stored on
   * new requests, which is that text with only white space removed from its ends.
   */
  function ResidentName(r: Resident): (name: string)
    ensures name == [] || (!IsSpace(name[0]) && !IsSpace(name[|name| - 1]))
    ensures exists k :: StripsTo(r.info.firstName + " " + r.info.middleName.GetOr("") + " " + r.info.lastName, name, k)
    ensures Contains(r.info.firstName + " " + r.info.middleName.GetOr("") + " " + r.info.lastName, name)
  {
    Trim(r.info.firstName + " " + r.info.middleName.GetOr("") + " " + r.info.lastName)
  }

  /**
   * With first and last names free of outer white space, trimming removes
   * nothing: a middle name sits between single spaces, and a missing one
   * leaves two spaces between first and last name.
   */
  lemma ResidentNameShape(r: Resident)
    requires Bounded(r.info.firstName) && Bounded(r.info.lastName)
    ensures r.info.middleName.None? ==> ResidentName(r) == r.info.firstName + "  " + r.info.lastName
    ensures r.info.middleName.Some? ==>
      ResidentName(r) == r.info.firstName + " " + r.info.middleName.value + " " + r.info.lastName
  {
    var first, last := r.info.firstName, r.info.lastName;
    var s := first + " " + r.info.middleName.GetOr("") + " " + last;
    assert s[0] == first[0];
    assert s[|s| - 1] == last[|last| - 1];
    TrimKeepsBounded(s);
  }

  /** The request a submission creates for `resident`. */
  function SubmittedData(resident: Resident, ct: CertificateType, purpose: string, file: Option<string>)
    : (d: RequestData)
    ensures d.residentId == resident.id && d.residentName == ResidentName(resident)
    ensures d.certificateType == ct && d.purpose == purpose && d.validIdFile == file
    ensures d.status == Pending && d.dateProcessed.None? && d.notes.None?
  {
    RequestData(resident.id, ResidentName(resident), ct, purpose, None, Pending, None, file)
  }

  /** The request a submission creates, with the id and date `addRequest` gives it. */
  function SubmittedRequest(resident: Resident, ct: CertificateType, purpose: string, file: Option<string>,
                            requestId: string, now: Date): CertificateRequest
  {
    Issue(SubmittedData(resident, ct, purpose, file), requestId, now)
  }

  /**
   * A submission becomes the last of the resident's own requests, and the
   * ones before it are kept.
   */
  lemma SubmissionEndsMyRequests(rs: seq<CertificateRequest>, resident: Resident, ct: CertificateType,
                                 purpose: string, file: Option<string>, requestId: string, now: Date)
    ensures var x := SubmittedRequest(resident, ct, purpose, file, requestId, now);
      Filter(rs + [x], OfResident(resident.id)) == Filter(rs, OfResident(resident.id)) + [x]
  {
    AddRequestResidentRequests(rs, SubmittedData(resident, ct, purpose, file), requestId, now, resident.id);
  }

  class ResidentPortal {
    const data: DataProvider
    const resident: Resident
    var certificateType: Option<CertificateType>   // None is the unselected ''
    var purpose: string
    var validIdFile: Option<string>                 // the chosen file's name
    var validIdPreview: string
    var modalOpen: bool

    constructor (data: DataProvider, resident: Resident)
      ensures this.data == data && this.resident == resident
      ensures certificateType.None? && purpose == "" && validIdFile.None? && validIdPreview == "" && !modalOpen
    {
      this.data := data;
      this.resident := resident;
      certificateType := None;
      purpose := "";
      validIdFile := None;
      validIdPreview := "";
      modalOpen := false;
    }

    /** `myRequests`: exactly the logged-in resident's requests, in order. */
    function MyRequests(): (r: seq<CertificateRequest>)
      reads this, data
      ensures forall x :: x in r <==> x in data.requests && x.residentId == resident.id
      ensures IsSubsequence(r, data.requests)
      ensures |r| == CountWhere(data.requests, OfResident(resident.id))
    {
      data.GetResidentRequests(resident.id)
    }

    /** The dialog's open state (`setIsModalOpen`): the request button opens it, cancel closes it. */
    method SetModalOpen(open: bool)
      modifies this
      ensures modalOpen == open
      ensures certificateType == old(certificateType) && purpose == old(purpose)
      ensures validIdFile == old(validIdFile) && validIdPreview == old(validIdPreview)
    {
      modalOpen := open;
    }

    /** The certificate type selector. */
    method SelectType(ct: CertificateType)
      modifies this
      ensures certificateType == Some(ct)
      ensures purpose == old(purpose) && validIdFile == old(validIdFile)
      ensures validIdPreview == old(validIdPreview) && modalOpen == old(modalOpen)
    {
      certificateType := Some(ct);
    }

    /** The purpose text area. */
    method SetPurpose(value: string)
      modifies this
      ensures purpose == value
      ensures certificateType == old(certificateType) && validIdFile == old(validIdFile)
      ensures validIdPreview == old(validIdPreview) && modalOpen == old(modalOpen)
    {
      purpose := value;
    }

    /**
     * `handleFileChange` with a chosen file: the file is recorded at once; its
     * preview is filled in later by a file reader, which is not modelled.
     */
    method ChooseFile(name: string)
      modifies this
      ensures validIdFile == Some(name)
      ensures certificateType == old(certificateType) && purpose == old(purpose)
      ensures validIdPreview == old(validIdPreview) && modalOpen == old(modalOpen)
    {
      validIdFile := Some(name);
    }

    /** `removeFile`: both the file and its preview are cleared. */
    method RemoveFile()
      modifies this
      ensures validIdFile.None? && validIdPreview == ""
      ensures certificateType == old(certificateType) && purpose == old(purpose) && modalOpen == old(modalOpen)
    {
      validIdFile := None;
      validIdPreview := "";
    }

    /**
     * `handleSubmitRequest`: without a certificate type nothing happens;
     * otherwise one Pending request for this resident is added (by
     * `SubmissionEndsMyRequests` it is the last of `MyRequests`), the form is
     * cleared and the modal closed.
     */
    method HandleSubmitRequest(requestId: string, notificationId: string, now: Date)
      modifies this, data
      ensures old(certificateType).None? ==>
        && data.requests == old(data.requests) && data.notifications == old(data.notifications)
        && certificateType == old(certificateType) && purpose == old(purpose)
        && validIdFile == old(validIdFile) && validIdPreview == old(validIdPreview)
        && modalOpen == old(modalOpen)
      ensures old(certificateType).Some? ==>
        data.requests == old(data.requests) +
          [SubmittedRequest(resident, old(certificateType).value, old(purpose), old(validIdFile), requestId, now)]
      ensures old(certificateType).Some? ==>
        |data.notifications| == |old(data.notifications)| + 1 && data.notifications[1..] == old(data.notifications)
      ensures old(certificateType).Some? ==>
        data.notifications[0] ==
          RequestNotice(SubmittedData(resident, old(certificateType).value, old(purpose), old(validIdFile)),
                        notificationId, requestId)
      ensures old(certificateType).Some? ==>
        certificateType.None? && purpose == "" && validIdFile.None? && validIdPreview == "" && !modalOpen
      ensures data.residents == old(data.residents)
    {
      if certificateType.None? {
        return;
      }
      var d := SubmittedData(resident, certificateType.value, purpose, validIdFile);
      data.AddRequest(d, requestId, notificationId, now);
      certificateType := None;
      purpose := "";
      validIdFile := None;
      validIdPreview := "";
      modalOpen := false;
    }
  }
}
