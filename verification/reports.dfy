/** The reports page: the issued-certificate log and the summary figures. */
module Reports {
  import opened Options
  import opened Seqs
  import opened Barangay
  import opened DataStore

  /** `approvedRequests`: exactly the Approved requests, in their original order. */
  function ApprovedRequests(rs: seq<CertificateRequest>): (r: seq<CertificateRequest>)
    ensures forall i :: 0 <= i < |r| ==> r[i] in rs && r[i].status == Approved
    ensures forall i :: 0 <= i < |rs| && rs[i].status == Approved ==> rs[i] in r
    ensures IsSubsequence(r, rs)
    ensures |r| == CountWhere(rs, IsApproved)
  {
    FilterIsSubsequence(rs, IsApproved);
    FilterCount(rs, IsApproved);
    Filter(rs, IsApproved)
  }

  /** `Math.ceil(n / 2)`: the least whole number of two-resident households holding `n` residents. */
  function TotalHouseholds(n: nat): (h: nat)
    ensures 2 * h >= n && 2 * h <= n + 1
  {
    (n + 1) / 2
  }

  datatype ReportSummary = ReportSummary(totalHouseholds: nat, requestsYTD: nat, totalResidents: nat)

  /** The three figures: households from the active residents, certificates issued, active residents. */
  function Summary(requests: seq<CertificateRequest>, residents: seq<Resident>): (s: ReportSummary)
    ensures s.requestsYTD == CountWhere(requests, IsApproved)
    ensures s.totalResidents == CountWhere(residents, IsActive)
    ensures 2 * s.totalHouseholds >= s.totalResidents && 2 * s.totalHouseholds <= s.totalResidents + 1
    ensures s.totalHouseholds <= s.totalResidents
  {
    FilterCount(requests, IsApproved);
    FilterCount(residents, IsActive);
    var active := |Filter(residents, IsActive)|;
    ReportSummary(TotalHouseholds(active), |ApprovedRequests(requests)|, active)
  }

  /** The "date issued" of a log row: the processing date when set, else the request date. */
  function LogDate(r: CertificateRequest): (d: Date)
    ensures r.dateProcessed.Some? ==> d == r.dateProcessed.value
    ensures r.dateProcessed.None? ==> d == r.dateRequested
  {
    r.dateProcessed.GetOr(r.dateRequested)
  }

  /** When processing dates are kept with the status, every logged row shows its processing date. */
  lemma LogDateIsProcessingDate(rs: seq<CertificateRequest>, i: nat)
    requires ProcessedMatchesStatus(rs)
    requires i < |ApprovedRequests(rs)|
    ensures ApprovedRequests(rs)[i].dateProcessed.Some?
    ensures LogDate(ApprovedRequests(rs)[i]) == ApprovedRequests(rs)[i].dateProcessed.value
  {
    var r := ApprovedRequests(rs)[i];
    var k :| 0 <= k < |rs| && rs[k] == r;
  }

  /** The "No certificates issued yet." row is shown exactly when no request is Approved. */
  function ShowsNoCertificatesRow(rs: seq<CertificateRequest>): (shown: bool)
    ensures shown <==> forall i :: 0 <= i < |rs| ==> rs[i].status != Approved
  {
    FilterEmptyIff(rs, IsApproved);
    |ApprovedRequests(rs)| == 0
  }
}
