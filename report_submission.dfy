/** The in-memory report registry: one object whose maps, counter, fee, authority binding and
    transfer log are updated in place by its operations. */
module ReportSubmission {
  import opened ReportRules

  class ReportSubmissionMock {
    // registry state
    var nextReportId: nat
    var maxReports: int
    var submissionFee: int
    var authorityContract: Option<string>
    var reports: map<int, Report>
    var reportUpdates: map<int, ReportUpdate>
    var reportsByHash: map<Bytes, int>
    // environment, set directly by whoever drives the registry
    var blockHeight: int
    var caller: string
    var authorities: set<string>
    // log of fee transfers, appended by each successful submission
    var stxTransfers: seq<Transfer>

    /** The registry invariant: dense ids below the ceiling, an exact hash index, updates that
        match their reports, one transfer per report, and stored reports that obey the field rules. */
    ghost predicate Valid()
      reads this`nextReportId, this`maxReports, this`authorityContract, this`reports,
            this`reportUpdates, this`reportsByHash, this`stxTransfers
    {
      && nextReportId <= maxReports
      && DenseIds(reports, nextReportId)
      && HashIndexed(reports, reportsByHash)
      && UpdatesMatch(reports, reportUpdates)
      && |stxTransfers| == nextReportId
      && TransfersMatch(reports, stxTransfers, authorityContract)
      && AllWellFormed(reports)
    }

    /** The state a fresh or reset registry starts in. */
    ghost predicate Initial()
      reads this
    {
      && nextReportId == 0
      && maxReports == MAX_REPORTS
      && submissionFee == DEFAULT_FEE
      && authorityContract == None
      && reports == map[]
      && reportUpdates == map[]
      && reportsByHash == map[]
      && blockHeight == 0
      && caller == DEFAULT_CALLER
      && authorities == {DEFAULT_CALLER}
      && stxTransfers == []
    }

    constructor ()
      ensures Valid() && Initial()
    {
      nextReportId, maxReports, submissionFee := 0, MAX_REPORTS, DEFAULT_FEE;
      authorityContract := None;
      reports, reportUpdates, reportsByHash := map[], map[], map[];
      blockHeight, caller, authorities := 0, DEFAULT_CALLER, {DEFAULT_CALLER};
      stxTransfers := [];
    }

    method Reset()
      modifies this
      ensures Valid() && Initial()
    {
      nextReportId, maxReports, submissionFee := 0, MAX_REPORTS, DEFAULT_FEE;
      authorityContract := None;
      reports, reportUpdates, reportsByHash := map[], map[], map[];
      blockHeight, caller, authorities := 0, DEFAULT_CALLER, {DEFAULT_CALLER};
      stxTransfers := [];
    }

    method IsVerifiedAuthority(principal: string) returns (verified: bool)
      ensures verified <==> principal in authorities
    {
      verified := principal in authorities;
    }

    /** Binds the authority contract once; the burn address is never accepted. */
    method SetAuthorityContract(contractPrincipal: string) returns (ok: bool)
      requires Valid()
      modifies this`authorityContract
      ensures Valid()
      ensures ok <==> contractPrincipal != BURN_ADDRESS && old(authorityContract) == None
      ensures authorityContract == if ok then Some(contractPrincipal) else old(authorityContract)
    {
      if contractPrincipal == BURN_ADDRESS {
        return false;
      }
      if authorityContract != None {
        return false;
      }
      authorityContract := Some(contractPrincipal);
      ok := true;
    }

    /** Changes the fee charged by later submissions, once an authority is bound. */
    method SetSubmissionFee(newFee: int) returns (ok: bool)
      requires Valid()
      modifies this`submissionFee
      ensures Valid()
      ensures ok <==> AuthoritySet(authorityContract)
      ensures submissionFee == if ok then newFee else old(submissionFee)
    {
      if !AuthoritySet(authorityContract) {
        return false;
      }
      submissionFee := newFee;
      ok := true;
    }

    /** Validates a submission check by check and, when every check passes, charges the fee,
        stores the report under the next id, indexes it by its evidence hash and advances the
        counter. A rejected submission leaves the registry as it was. */
    method SubmitReport(
      drugId: int, anonymousId: Bytes, description: string, severity: int,
      location: string, evidenceHash: Bytes, metadata: string) returns (r: Result<nat>)
      requires Valid()
      modifies this`stxTransfers, this`reports, this`reportsByHash, this`nextReportId
      ensures Valid()
      ensures
        var s := Submission(drugId, anonymousId, description, severity, location, evidenceHash, metadata);
        var verdict := SubmitVerdict(old(nextReportId), maxReports, s, caller in authorities,
                                     evidenceHash in old(reportsByHash), authorityContract);
        match verdict
        case Some(code) =>
          && r == Err(code)
          && nextReportId == old(nextReportId)
          && reports == old(reports)
          && reportsByHash == old(reportsByHash)
          && stxTransfers == old(stxTransfers)
        case None =>
          && r == Ok(old(nextReportId))
          && nextReportId == old(nextReportId) + 1
          && reports == old(reports)[old(nextReportId) := NewReport(s, blockHeight, caller)]
          && reportsByHash == old(reportsByHash)[evidenceHash := old(nextReportId)]
          && stxTransfers == old(stxTransfers) + [Transfer(submissionFee, caller, authorityContract.value)]
      ensures IdentityKept(old(reports), reports)
    {
      var s := Submission(drugId, anonymousId, description, severity, location, evidenceHash, metadata);
      SubmitVerdictOrder(nextReportId, maxReports, s, caller in authorities,
                         evidenceHash in reportsByHash, authorityContract);
      if nextReportId >= maxReports {
        return Err(ERR_INVALID_REPORT_COUNT);
      }
      if drugId <= 0 {
        return Err(ERR_INVALID_DRUG_ID);
      }
      if |anonymousId| == 0 {
        return Err(ERR_INVALID_ANONYMOUS_ID);
      }
      if description == "" || |description| > 500 {
        return Err(ERR_INVALID_DESCRIPTION);
      }
      if severity < 1 || severity > 5 {
        return Err(ERR_INVALID_SEVERITY);
      }
      if location == "" || |location| > 100 {
        return Err(ERR_INVALID_LOCATION);
      }
      if |evidenceHash| == 0 {
        return Err(ERR_INVALID_HASH);
      }
      if |metadata| > 200 {
        return Err(ERR_INVALID_METADATA);
      }
      var verified := IsVerifiedAuthority(caller);
      if !verified {
        return Err(ERR_NOT_AUTHORIZED);
      }
      if evidenceHash in reportsByHash {
        return Err(ERR_REPORT_ALREADY_EXISTS);
      }
      if !AuthoritySet(authorityContract) {
        return Err(ERR_AUTHORITY_NOT_SET);
      }

      stxTransfers := stxTransfers + [Transfer(submissionFee, caller, authorityContract.value)];
      var id := nextReportId;
      var report := Report(drugId, anonymousId, description, severity, blockHeight, caller,
                           location, PENDING, evidenceHash, metadata);
      assert report == NewReport(s, blockHeight, caller);
      assert FieldsValid(s);
      assert WellFormed(report);
      CommitKeepsIndex(reports, reportsByHash, id, report);
      CommitKeepsRecords(reports, reportUpdates, old(stxTransfers), authorityContract, report, submissionFee);
      reports := reports[id := report];
      reportsByHash := reportsByHash[evidenceHash := id];
      nextReportId := nextReportId + 1;
      r := Ok(id);
    }

    /** Lets the original submitter amend description and severity; the report is re-stamped
        with the block height and the amendment replaces the report's latest update. */
    method UpdateReport(id: int, updateDescription: string, updateSeverity: int) returns (ok: bool)
      requires Valid()
      modifies this`reports, this`reportUpdates
      ensures Valid()
      ensures ok <==> UpdateAllowed(if id in old(reports) then Some(old(reports)[id]) else None,
                                    caller, updateDescription, updateSeverity)
      ensures !ok ==> reports == old(reports) && reportUpdates == old(reportUpdates)
      ensures ok ==>
        && reports == old(reports)[id := Amend(old(reports)[id], updateDescription, updateSeverity, blockHeight)]
        && reportUpdates == old(reportUpdates)[id := ReportUpdate(updateDescription, updateSeverity, blockHeight, caller)]
      ensures IdentityKept(old(reports), reports)
    {
      if id !in reports {
        return false;
      }
      var report := reports[id];
      if report.submitter != caller {
        return false;
      }
      if updateDescription == "" || |updateDescription| > 500 {
        return false;
      }
      if updateSeverity < 1 || updateSeverity > 5 {
        return false;
      }
      var updated := report.(description := updateDescription, severity := updateSeverity,
                             timestamp := blockHeight);
      assert updated == Amend(report, updateDescription, updateSeverity, blockHeight);
      AmendKeepsIndex(reports, reportsByHash, id, updateDescription, updateSeverity, blockHeight);
      reports := reports[id := updated];
      reportUpdates := reportUpdates[id := ReportUpdate(updateDescription, updateSeverity, blockHeight, caller)];
      ok := true;
    }

    /** The report stored under `id`, present exactly for the ids handed out so far. */
    method GetReport(id: int) returns (r: Option<Report>)
      requires Valid()
      ensures r.Some? <==> 0 <= id < nextReportId
      ensures r.Some? ==> id in reports && r.value == reports[id]
      ensures r.Some? ==> WellFormed(r.value) && reportsByHash[r.value.evidenceHash] == id
    {
      if id in reports {
        r := Some(reports[id]);
      } else {
        r := None;
      }
    }

    /** The counter, which equals the number of stored reports and of charged submissions. */
    method GetReportCount() returns (count: nat)
      requires Valid()
      ensures count == nextReportId
      ensures count == |reports| && count == |stxTransfers|
    {
      count := nextReportId;
      DenseIdsCount(reports, nextReportId);
    }

    /** Whether a stored report carries the evidence hash `hash`. */
    method IsReportRegistered(hash: Bytes) returns (registered: bool)
      requires Valid()
      ensures registered <==> hash in reportsByHash
      ensures registered <==> exists id :: id in reports && reports[id].evidenceHash == hash
      ensures registered ==> hash != []
    {
      registered := hash in reportsByHash;
      if registered {
        var id := reportsByHash[hash];
        assert id in reports && reports[id].evidenceHash == hash;
      } else {
        forall id | id in reports
          ensures reports[id].evidenceHash != hash
        {
          assert reports[id].evidenceHash in reportsByHash;
        }
      }
    }
  }
}
