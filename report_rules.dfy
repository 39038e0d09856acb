/** Records, validation rules and state invariants of the adverse-drug-event report registry.
    Everything here is a value; the registry object that holds them is in report_submission.dfy. */
module ReportRules {

  datatype Option<+T> = None | Some(value: T)

  /** A registry answer that carries either a value or one of the numeric error codes below. */
  datatype Result<+T> = Ok(value: T) | Err(code: int)

  /** Node `Buffer` contents (the anonymous id and the evidence hash). */
  type Bytes = seq<bv8>

  const ERR_NOT_AUTHORIZED := 100
  const ERR_INVALID_DRUG_ID := 101
  const ERR_INVALID_SEVERITY := 102
  const ERR_INVALID_DESCRIPTION := 103
  const ERR_INVALID_HASH := 104
  const ERR_REPORT_ALREADY_EXISTS := 106
  const ERR_REPORT_NOT_FOUND := 107
  const ERR_INVALID_LOCATION := 110
  const ERR_AUTHORITY_NOT_SET := 111
  const ERR_INVALID_METADATA := 113
  const ERR_INVALID_ANONYMOUS_ID := 114
  const ERR_INVALID_REPORT_COUNT := 115

  /** The codes `submitReport` can answer with. */
  const SUBMIT_ERRORS: set<int> := {
    ERR_INVALID_REPORT_COUNT, ERR_INVALID_DRUG_ID, ERR_INVALID_ANONYMOUS_ID,
    ERR_INVALID_DESCRIPTION, ERR_INVALID_SEVERITY, ERR_INVALID_LOCATION, ERR_INVALID_HASH,
    ERR_INVALID_METADATA, ERR_NOT_AUTHORIZED, ERR_REPORT_ALREADY_EXISTS, ERR_AUTHORITY_NOT_SET
  }

  /** The burn address that can never become the authority contract. */
  const BURN_ADDRESS := "SP000000000000000000002Q6VF78"

  const MAX_REPORTS := 1000000
  const DEFAULT_FEE := 500
  const DEFAULT_CALLER := "ST1TEST"
  const PENDING := "pending"

  datatype Report = Report(
    drugId: int,
    anonymousId: Bytes,
    description: string,
    severity: int,
    timestamp: int,
    submitter: string,
    location: string,
    status: string,
    evidenceHash: Bytes,
    metadata: string)

  /** The latest amendment of a report; each update overwrites the previous one. */
  datatype ReportUpdate = ReportUpdate(
    updateDescription: string,
    updateSeverity: int,
    updateTimestamp: int,
    updater: string)

  /** One entry of the fee-transfer log: `amount` from `from` to the authority `to`. */
  datatype Transfer = Transfer(amount: int, from: string, to: string)

  // ---------------------------------------------------------------------------
  // Field rules, shared by submitReport and updateReport

  /** A description is non-empty (truthy) and at most 500 characters. */
  predicate ValidDescription(d: string) { d != [] && |d| <= 500 }

  predicate ValidSeverity(s: int) { 1 <= s <= 5 }

  /** A location is non-empty (truthy) and at most 100 characters. */
  predicate ValidLocation(l: string) { l != [] && |l| <= 100 }

  predicate ValidMetadata(m: string) { |m| <= 200 }

  /** The authority binding counts as set only when it holds a truthy string:
      a bound empty string behaves as unbound wherever the binding is tested for truth. */
  predicate AuthoritySet(authority: Option<string>) { authority.Some? && authority.value != "" }

  // ---------------------------------------------------------------------------
  // The ordered validation pipeline of submitReport

  /** One step of a validation pipeline: whether it passes, and the code it fails with. */
  datatype Check = Check(passes: bool, code: int)

  /** The position of the first failing check, or |checks| when every check passes. */
  function FirstFailing(checks: seq<Check>): (k: nat)
    ensures k <= |checks|
    ensures forall j | 0 <= j < k :: checks[j].passes
    ensures k < |checks| ==> !checks[k].passes
  {
    if checks == [] then 0
    else if !checks[0].passes then 0
    else 1 + FirstFailing(checks[1..])
  }

  /** The arguments of one submitReport call. */
  datatype Submission = Submission(
    drugId: int,
    anonymousId: Bytes,
    description: string,
    severity: int,
    location: string,
    evidenceHash: Bytes,
    metadata: string)

  /** The checks of submitReport, in the order the registry runs them. */
  function SubmitChecks(
    count: nat, maxReports: int, s: Submission,
    callerIsAuthority: bool, hashIndexed: bool, authority: Option<string>): seq<Check>
  {
    [ Check(count < maxReports, ERR_INVALID_REPORT_COUNT),
      Check(s.drugId > 0, ERR_INVALID_DRUG_ID),
      Check(s.anonymousId != [], ERR_INVALID_ANONYMOUS_ID),
      Check(ValidDescription(s.description), ERR_INVALID_DESCRIPTION),
      Check(ValidSeverity(s.severity), ERR_INVALID_SEVERITY),
      Check(ValidLocation(s.location), ERR_INVALID_LOCATION),
      Check(s.evidenceHash != [], ERR_INVALID_HASH),
      Check(ValidMetadata(s.metadata), ERR_INVALID_METADATA),
      Check(callerIsAuthority, ERR_NOT_AUTHORIZED),
      Check(!hashIndexed, ERR_REPORT_ALREADY_EXISTS),
      Check(AuthoritySet(authority), ERR_AUTHORITY_NOT_SET) ]
  }

  /** Every field of a submission satisfies its rule. */
  predicate FieldsValid(s: Submission) {
    && s.drugId > 0
    && s.anonymousId != []
    && ValidDescription(s.description)
    && ValidSeverity(s.severity)
    && ValidLocation(s.location)
    && s.evidenceHash != []
    && ValidMetadata(s.metadata)
  }

  /** The verdict of submitReport: None to commit, or the code of the first failing check. */
  function SubmitVerdict(
    count: nat, maxReports: int, s: Submission,
    callerIsAuthority: bool, hashIndexed: bool, authority: Option<string>): (v: Option<int>)
    ensures v == None <==>
      count < maxReports && FieldsValid(s) && callerIsAuthority && !hashIndexed && AuthoritySet(authority)
    ensures v.Some? ==> v.value in SUBMIT_ERRORS
  {
    var checks := SubmitChecks(count, maxReports, s, callerIsAuthority, hashIndexed, authority);
    var k := FirstFailing(checks);
    assert k == |checks| ==>
      && checks[0].passes && checks[1].passes && checks[2].passes && checks[3].passes
      && checks[4].passes && checks[5].passes && checks[6].passes && checks[7].passes
      && checks[8].passes && checks[9].passes && checks[10].passes;
    assert k in {0, 1, 2, 3, 4, 5, 6, 7, 8, 9, 10, 11};
    if k == |checks| then None else Some(checks[k].code)
  }

  /** The verdict, check by check: each code is returned exactly when its check is the first to fail. */
  lemma SubmitVerdictOrder(
    count: nat, maxReports: int, s: Submission,
    callerIsAuthority: bool, hashIndexed: bool, authority: Option<string>)
    ensures var v := SubmitVerdict(count, maxReports, s, callerIsAuthority, hashIndexed, authority);
      && (!(count < maxReports) ==> v == Some(ERR_INVALID_REPORT_COUNT))
      && (count < maxReports ==> (
        && (!(s.drugId > 0) ==> v == Some(ERR_INVALID_DRUG_ID))
        && (s.drugId > 0 ==> (
          && (s.anonymousId == [] ==> v == Some(ERR_INVALID_ANONYMOUS_ID))
          && (s.anonymousId != [] ==> (
            && (!ValidDescription(s.description) ==> v == Some(ERR_INVALID_DESCRIPTION))
            && (ValidDescription(s.description) ==> (
              && (!ValidSeverity(s.severity) ==> v == Some(ERR_INVALID_SEVERITY))
              && (ValidSeverity(s.severity) ==> (
                && (!ValidLocation(s.location) ==> v == Some(ERR_INVALID_LOCATION))
                && (ValidLocation(s.location) ==> (
                  && (s.evidenceHash == [] ==> v == Some(ERR_INVALID_HASH))
                  && (s.evidenceHash != [] ==> (
                    && (!ValidMetadata(s.metadata) ==> v == Some(ERR_INVALID_METADATA))
                    && (ValidMetadata(s.metadata) ==> (
                      && (!callerIsAuthority ==> v == Some(ERR_NOT_AUTHORIZED))
                      && (callerIsAuthority ==> (
                        && (hashIndexed ==> v == Some(ERR_REPORT_ALREADY_EXISTS))
                        && (!hashIndexed ==> (
                          && (!AuthoritySet(authority) ==> v == Some(ERR_AUTHORITY_NOT_SET))
                          && (AuthoritySet(authority) ==> v == None)))))))))))))))))))))
  {
    var checks := SubmitChecks(count, maxReports, s, callerIsAuthority, hashIndexed, authority);
    var k := FirstFailing(checks);
    assert k in {0, 1, 2, 3, 4, 5, 6, 7, 8, 9, 10, 11};
    assert 0 < k ==> checks[0].passes;
    assert 1 < k ==> checks[1].passes;
    assert 2 < k ==> checks[2].passes;
    assert 3 < k ==> checks[3].passes;
    assert 4 < k ==> checks[4].passes;
    assert 5 < k ==> checks[5].passes;
    assert 6 < k ==> checks[6].passes;
    assert 7 < k ==> checks[7].passes;
    assert 8 < k ==> checks[8].passes;
    assert 9 < k ==> checks[9].passes;
  }

  /** A bound empty-string authority never lets a submission through, whatever its fields. */
  lemma EmptyAuthorityRejectsEverySubmission(
    count: nat, maxReports: int, s: Submission, callerIsAuthority: bool, hashIndexed: bool)
    ensures SubmitVerdict(count, maxReports, s, callerIsAuthority, hashIndexed, Some("")) != None
  {
  }

  // ---------------------------------------------------------------------------
  // The report stored by a successful submission, and the amendment made by an update

  /** The record submitReport stores: the submitted fields, status pending, stamped with the
      block height and the caller. */
  function NewReport(s: Submission, blockHeight: int, caller: string): (r: Report)
    ensures FieldsValid(s) ==> WellFormed(r)
    ensures r.evidenceHash == s.evidenceHash && r.submitter == caller && r.status == PENDING
  {
    Report(s.drugId, s.anonymousId, s.description, s.severity, blockHeight, caller,
           s.location, PENDING, s.evidenceHash, s.metadata)
  }

  /** The record updateReport stores: only description, severity and timestamp are replaced. */
  function Amend(r: Report, description: string, severity: int, blockHeight: int): (r': Report)
    ensures r'.(description := r.description, severity := r.severity, timestamp := r.timestamp) == r
    ensures r'.description == description && r'.severity == severity && r'.timestamp == blockHeight
    ensures WellFormed(r) && ValidDescription(description) && ValidSeverity(severity) ==> WellFormed(r')
  {
    r.(description := description, severity := severity, timestamp := blockHeight)
  }

  /** The checks of updateReport; any failure is the same plain `false`. */
  predicate UpdateAllowed(stored: Option<Report>, caller: string, description: string, severity: int)
  {
    && stored.Some?
    && stored.value.submitter == caller
    && ValidDescription(description)
    && ValidSeverity(severity)
  }

  // ---------------------------------------------------------------------------
  // Invariants of the registry state, stated over its maps

  /** A stored report satisfies every field rule and keeps the pending status. */
  predicate WellFormed(r: Report) {
    && FieldsValid(Submission(r.drugId, r.anonymousId, r.description, r.severity,
                              r.location, r.evidenceHash, r.metadata))
    && r.status == PENDING
  }

  /** Every stored report is well-formed. */
  ghost predicate AllWellFormed(reports: map<int, Report>) {
    forall id | id in reports :: WellFormed(reports[id])
  }

  /** The ids in use are exactly 0 .. next-1. */
  ghost predicate DenseIds<V>(reports: map<int, V>, next: nat) {
    forall id :: id in reports <==> 0 <= id < next
  }

  /** The hash index and the reports agree in both directions: every indexed hash leads to the
      report carrying it, and every report is indexed under its own hash. */
  ghost predicate HashIndexed(reports: map<int, Report>, index: map<Bytes, int>) {
    && (forall h | h in index :: index[h] in reports && reports[index[h]].evidenceHash == h)
    && (forall id | id in reports :: reports[id].evidenceHash in index && index[reports[id].evidenceHash] == id)
  }

  /** The latest update of a report is the one that its current description, severity and
      timestamp came from, and it was made by the report's submitter. */
  ghost predicate UpdatesMatch(reports: map<int, Report>, updates: map<int, ReportUpdate>) {
    forall id | id in updates ::
      && id in reports
      && updates[id].updateDescription == reports[id].description
      && updates[id].updateSeverity == reports[id].severity
      && updates[id].updateTimestamp == reports[id].timestamp
      && updates[id].updater == reports[id].submitter
  }

  /** Transfer i paid for report i: one transfer per report, from its submitter, to the authority. */
  ghost predicate TransfersMatch(reports: map<int, Report>, transfers: seq<Transfer>, authority: Option<string>) {
    && (|transfers| > 0 ==> AuthoritySet(authority))
    && forall i | 0 <= i < |transfers| ::
         && i in reports
         && transfers[i].from == reports[i].submitter
         && authority == Some(transfers[i].to)
  }

  /** Every report of `before` is still stored in `after` with the same drug, anonymous id,
      submitter, location, status, evidence hash and metadata: only description, severity and
      timestamp of a stored report ever change. */
  ghost predicate IdentityKept(before: map<int, Report>, after: map<int, Report>) {
    forall id | id in before ::
      && id in after
      && after[id].(description := before[id].description, severity := before[id].severity,
                    timestamp := before[id].timestamp) == before[id]
  }

  /** A map whose keys are exactly 0 .. n-1 has n entries: the report count is the number of reports. */
  lemma {:induction false} DenseIdsCount<V>(reports: map<int, V>, n: nat)
    requires DenseIds(reports, n)
    ensures |reports| == n
  {
    if n == 0 {
      assert forall id :: id !in reports;
      assert reports.Keys == {};
    } else {
      var rest := reports - {n - 1};
      assert DenseIds(rest, n - 1);
      DenseIdsCount(rest, n - 1);
      assert reports.Keys == rest.Keys + {n - 1};
      assert |reports.Keys| == |rest.Keys| + 1;
    }
  }

  /** Through the index, distinct reports carry distinct evidence hashes. */
  lemma DistinctEvidenceHashes(reports: map<int, Report>, index: map<Bytes, int>, i: int, j: int)
    requires HashIndexed(reports, index)
    requires i in reports && j in reports && i != j
    ensures reports[i].evidenceHash != reports[j].evidenceHash
  {
  }

  /** Storing a new report under the next id and its fresh hash keeps ids dense and the index exact. */
  lemma CommitKeepsIndex(
    reports: map<int, Report>, index: map<Bytes, int>, next: nat, r: Report)
    requires DenseIds(reports, next) && HashIndexed(reports, index)
    requires r.evidenceHash !in index
    ensures DenseIds(reports[next := r], next + 1)
    ensures HashIndexed(reports[next := r], index[r.evidenceHash := next])
  {
  }

  /** Storing a well-formed report under the next id and logging its fee transfer keeps every
      stored report well-formed, every latest update matched and one transfer per report. */
  lemma CommitKeepsRecords(
    reports: map<int, Report>, updates: map<int, ReportUpdate>, transfers: seq<Transfer>,
    authority: Option<string>, r: Report, fee: int)
    requires DenseIds(reports, |transfers|) && UpdatesMatch(reports, updates)
    requires TransfersMatch(reports, transfers, authority)
    requires AllWellFormed(reports)
    requires WellFormed(r) && AuthoritySet(authority)
    ensures UpdatesMatch(reports[|transfers| := r], updates)
    ensures TransfersMatch(reports[|transfers| := r], transfers + [Transfer(fee, r.submitter, authority.value)], authority)
    ensures AllWellFormed(reports[|transfers| := r])
  {
  }

  /** Amending a stored report keeps its hash, so the index stays exact. */
  lemma AmendKeepsIndex(
    reports: map<int, Report>, index: map<Bytes, int>, id: int,
    description: string, severity: int, blockHeight: int)
    requires HashIndexed(reports, index) && id in reports
    ensures HashIndexed(reports[id := Amend(reports[id], description, severity, blockHeight)], index)
  {
  }
}
