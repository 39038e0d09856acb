/** The registry's recorded usage scenarios, replayed against the contracts of
    ReportSubmissionMock: each method drives a fresh registry and asserts the outcome. */
module ReportScenarios {
  import opened ReportRules
  import opened ReportSubmission

  /** A 32-byte buffer filled with one byte value ('a' is 0x61, 'b' 0x62, 'c' 0x63). */
  function Filled(b: bv8): Bytes { seq(32, _ => b) }

  method SubmitsReportSuccessfully() {
    var registry := new ReportSubmissionMock();
    var bound := registry.SetAuthorityContract("ST2TEST");
    assert bound;
    var anonymousId, evidenceHash := Filled(0x61), Filled(0x62);
    var r := registry.SubmitReport(1, anonymousId, "Headache", 3, "New York", evidenceHash, "Age: 30");
    assert r == Ok(0);
    var report := registry.GetReport(0);
    assert report == Some(Report(1, anonymousId, "Headache", 3, 0, "ST1TEST", "New York",
                                 PENDING, evidenceHash, "Age: 30"));
    assert registry.stxTransfers == [Transfer(500, "ST1TEST", "ST2TEST")];
  }

  method RejectsDuplicateEvidenceHash() {
    var registry := new ReportSubmissionMock();
    var bound := registry.SetAuthorityContract("ST2TEST");
    var anonymousId, evidenceHash := Filled(0x61), Filled(0x62);
    var first := registry.SubmitReport(1, anonymousId, "Headache", 3, "New York", evidenceHash, "Age: 30");
    assert first == Ok(0);
    assert registry.Valid() && registry.nextReportId == 1 && evidenceHash in registry.reportsByHash;
    var s := Submission(2, anonymousId, "Nausea", 4, "London", evidenceHash, "Age: 40");
    assert SubmitVerdict(1, MAX_REPORTS, s, true, true, Some("ST2TEST")) == Some(ERR_REPORT_ALREADY_EXISTS) by {
      SubmitVerdictOrder(1, MAX_REPORTS, s, true, true, Some("ST2TEST"));
    }
    var second := registry.SubmitReport(2, anonymousId, "Nausea", 4, "London", evidenceHash, "Age: 40");
    assert second == Err(ERR_REPORT_ALREADY_EXISTS);
    var report := registry.GetReport(0);
    assert report.Some? && report.value.description == "Headache";
    var registered := registry.IsReportRegistered(evidenceHash);
    assert registered;
    var count := registry.GetReportCount();
    assert count == 1;
  }

  method RejectsNonAuthorizedCaller() {
    var registry := new ReportSubmissionMock();
    var bound := registry.SetAuthorityContract("ST2TEST");
    registry.caller := "ST2FAKE";
    registry.authorities := {};
    assert registry.Valid() && registry.nextReportId == 0 && registry.reportsByHash == map[];
    var s := Submission(1, Filled(0x61), "Headache", 3, "New York", Filled(0x62), "Age: 30");
    assert SubmitVerdict(0, MAX_REPORTS, s, false, false, Some("ST2TEST")) == Some(ERR_NOT_AUTHORIZED) by {
      assert FieldsValid(s);
      SubmitVerdictOrder(0, MAX_REPORTS, s, false, false, Some("ST2TEST"));
    }
    var r := registry.SubmitReport(1, Filled(0x61), "Headache", 3, "New York", Filled(0x62), "Age: 30");
    assert r == Err(ERR_NOT_AUTHORIZED);
    assert registry.stxTransfers == [];
  }

  method RejectsSubmissionWithoutAuthority() {
    var registry := new ReportSubmissionMock();
    var s := Submission(1, Filled(0x61), "Headache", 3, "New York", Filled(0x62), "Age: 30");
    assert SubmitVerdict(0, MAX_REPORTS, s, true, false, None) == Some(ERR_AUTHORITY_NOT_SET) by {
      SubmitVerdictOrder(0, MAX_REPORTS, s, true, false, None);
    }
    var r := registry.SubmitReport(1, Filled(0x61), "Headache", 3, "New York", Filled(0x62), "Age: 30");
    assert r == Err(ERR_AUTHORITY_NOT_SET);
  }

  /** A bound registry rejects `s` with `code`, and nothing is stored or charged. */
  method RejectsWith(s: Submission, code: int)
    requires SubmitVerdict(0, MAX_REPORTS, s, true, false, Some("ST2TEST")) == Some(code)
  {
    var registry := new ReportSubmissionMock();
    var bound := registry.SetAuthorityContract("ST2TEST");
    var r := registry.SubmitReport(s.drugId, s.anonymousId, s.description, s.severity,
                                   s.location, s.evidenceHash, s.metadata);
    assert r == Err(code);
    assert registry.nextReportId == 0 && registry.reports == map[] && registry.stxTransfers == [];
  }

  method RejectsInvalidDrugId() {
    var s := Submission(0, Filled(0x61), "Headache", 3, "New York", Filled(0x62), "Age: 30");
    assert SubmitVerdict(0, MAX_REPORTS, s, true, false, Some("ST2TEST")) == Some(ERR_INVALID_DRUG_ID) by {
      SubmitVerdictOrder(0, MAX_REPORTS, s, true, false, Some("ST2TEST"));
    }
    RejectsWith(s, ERR_INVALID_DRUG_ID);
  }

  method RejectsInvalidSeverity() {
    var s := Submission(1, Filled(0x61), "Headache", 6, "New York", Filled(0x62), "Age: 30");
    assert SubmitVerdict(0, MAX_REPORTS, s, true, false, Some("ST2TEST")) == Some(ERR_INVALID_SEVERITY) by {
      SubmitVerdictOrder(0, MAX_REPORTS, s, true, false, Some("ST2TEST"));
    }
    RejectsWith(s, ERR_INVALID_SEVERITY);
  }

  method RejectsInvalidDescription() {
    var s := Submission(1, Filled(0x61), "", 3, "New York", Filled(0x62), "Age: 30");
    assert SubmitVerdict(0, MAX_REPORTS, s, true, false, Some("ST2TEST")) == Some(ERR_INVALID_DESCRIPTION) by {
      SubmitVerdictOrder(0, MAX_REPORTS, s, true, false, Some("ST2TEST"));
    }
    RejectsWith(s, ERR_INVALID_DESCRIPTION);
  }

  method RejectsInvalidEvidenceHash() {
    var s := Submission(1, Filled(0x61), "Headache", 3, "New York", [], "Age: 30");
    assert SubmitVerdict(0, MAX_REPORTS, s, true, false, Some("ST2TEST")) == Some(ERR_INVALID_HASH) by {
      SubmitVerdictOrder(0, MAX_REPORTS, s, true, false, Some("ST2TEST"));
    }
    RejectsWith(s, ERR_INVALID_HASH);
  }

  method UpdatesReportSuccessfully() {
    var registry := new ReportSubmissionMock();
    var bound := registry.SetAuthorityContract("ST2TEST");
    var r := registry.SubmitReport(1, Filled(0x61), "Headache", 3, "New York", Filled(0x62), "Age: 30");
    assert r == Ok(0);
    var ok := registry.UpdateReport(0, "Nausea", 4);
    assert ok;
    var report := registry.GetReport(0);
    assert report.Some? && report.value.description == "Nausea" && report.value.severity == 4;
    assert report.value.evidenceHash == Filled(0x62) && report.value.submitter == "ST1TEST";
    assert registry.reportUpdates[0] == ReportUpdate("Nausea", 4, 0, "ST1TEST");
  }

  method RejectsUpdateOfMissingReport() {
    var registry := new ReportSubmissionMock();
    var bound := registry.SetAuthorityContract("ST2TEST");
    var ok := registry.UpdateReport(99, "Nausea", 4);
    assert !ok;
    assert registry.reports == map[] && registry.reportUpdates == map[];
  }

  method RejectsUpdateByNonSubmitter() {
    var registry := new ReportSubmissionMock();
    var bound := registry.SetAuthorityContract("ST2TEST");
    var r := registry.SubmitReport(1, Filled(0x61), "Headache", 3, "New York", Filled(0x62), "Age: 30");
    assert r == Ok(0);
    registry.caller := "ST3FAKE";
    assert registry.Valid() && 0 in registry.reports;
    var ok := registry.UpdateReport(0, "Nausea", 4);
    assert !ok;
    var report := registry.GetReport(0);
    assert report.Some? && report.value.description == "Headache";
  }

  method SetsSubmissionFee() {
    var registry := new ReportSubmissionMock();
    var bound := registry.SetAuthorityContract("ST2TEST");
    var ok := registry.SetSubmissionFee(1000);
    assert ok && registry.submissionFee == 1000;
    var r := registry.SubmitReport(1, Filled(0x61), "Headache", 3, "New York", Filled(0x62), "Age: 30");
    assert registry.stxTransfers == [Transfer(1000, "ST1TEST", "ST2TEST")];
  }

  method CountsReports() {
    var registry := new ReportSubmissionMock();
    var bound := registry.SetAuthorityContract("ST2TEST");
    assert Filled(0x62)[0] != Filled(0x63)[0];
    var r1 := registry.SubmitReport(1, Filled(0x61), "Headache", 3, "New York", Filled(0x62), "Age: 30");
    var r2 := registry.SubmitReport(2, Filled(0x61), "Nausea", 4, "London", Filled(0x63), "Age: 40");
    assert r1 == Ok(0) && r2 == Ok(1);
    var count := registry.GetReportCount();
    assert count == 2;
  }

  method ChecksReportExistence() {
    var registry := new ReportSubmissionMock();
    var bound := registry.SetAuthorityContract("ST2TEST");
    assert Filled(0x62)[0] != Filled(0x63)[0];
    var r := registry.SubmitReport(1, Filled(0x61), "Headache", 3, "New York", Filled(0x62), "Age: 30");
    var registered := registry.IsReportRegistered(Filled(0x62));
    assert registered;
    registered := registry.IsReportRegistered(Filled(0x63));
    assert !registered;
  }

  /** The burn address is refused and the first binding sticks. */
  method BindsAuthorityOnce() {
    var registry := new ReportSubmissionMock();
    var ok := registry.SetAuthorityContract(BURN_ADDRESS);
    assert !ok && registry.authorityContract == None;
    ok := registry.SetAuthorityContract("ST2TEST");
    assert ok && registry.authorityContract == Some("ST2TEST");
    ok := registry.SetAuthorityContract("ST3TEST");
    assert !ok && registry.authorityContract == Some("ST2TEST");
  }

  /** A bound empty string can never be replaced, and it leaves the registry unable to take a
      fee change or a submission. */
  method EmptyAuthorityBlocksRegistry() {
    var registry := new ReportSubmissionMock();
    var ok := registry.SetAuthorityContract("");
    assert ok && registry.authorityContract == Some("");
    ok := registry.SetAuthorityContract("ST2TEST");
    assert !ok;
    ok := registry.SetSubmissionFee(1000);
    assert !ok && registry.submissionFee == 500;
    var s := Submission(1, Filled(0x61), "Headache", 3, "New York", Filled(0x62), "Age: 30");
    EmptyAuthorityRejectsEverySubmission(0, MAX_REPORTS, s, true, false);
    var r := registry.SubmitReport(1, Filled(0x61), "Headache", 3, "New York", Filled(0x62), "Age: 30");
    assert r.Err?;
  }
}
