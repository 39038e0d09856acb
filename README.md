# Adverse-drug-event report registry in Dafny

This project models `ReportSubmissionMock`, the in-memory registry for adverse-drug-event reports in the
pharmacovigilance repository. The registry is one object with this state:

- a next-id counter and a capacity ceiling (1 000 000);
- a submission fee (500 by default);
- a set-once authority-contract binding;
- a map from id to report;
- a map from id to the latest update of that report;
- an index from evidence hash to id;
- an append-only log of fee transfers.

Beside the state sit the current block height, the caller and the set of verified authorities. Whoever
drives the registry sets these directly.

The model has three files:

- `report_rules.dfy` (module `ReportRules`) holds the values and the rules:
  - the records (`Report`, `ReportUpdate`, `Transfer`) and the error codes;
  - the field rules;
  - the ordered validation pipeline of `submitReport`. It is a list of `Check`s, and `FirstFailing`
    picks the first one that fails;
  - the registry invariants, stated over maps, and the lemmas about them.
- `report_submission.dfy` (module `ReportSubmission`) holds the class `ReportSubmissionMock`:
  - its fields are the registry state;
  - `Valid()` is the invariant every operation keeps: ids are dense and stay below the ceiling, the
    hash index agrees with the reports both ways, each report's latest update matches the report,
    there is one transfer per report (from its submitter, to the bound authority), and every stored
    report obeys the field rules;
  - `SubmitReport` runs the same check-by-check `if` chain as the source. Its postcondition ties the
    result and the new state to the pipeline function `SubmitVerdict`.
- `report_scenarios.dfy` (module `ReportScenarios`) replays the repository's vitest cases against the
  class contracts (tests/ReportSubmission.test.ts:215-494), plus two cases about the authority binding.

Behaviour kept as written:

- **Checks run in a fixed order.** The authority binding is checked last (line 134). So a submission
  made before any authority is bound gets error 111 only when every earlier check passes. An invalid
  field, an unauthorised caller or a duplicate hash reports its own code first.
- **An empty-string authority blocks the registry.** `setAuthorityContract("")` succeeds and binds `""`
  (lines 93-96). The fee and submit paths then treat `""` as unbound (lines 101 and 134). After that:
  - a second binding is refused, because the binding is no longer `null`;
  - every fee change is refused;
  - every submission is rejected.

  The model keeps this behaviour. `AuthoritySet` is the truthiness test. `EmptyAuthorityRejectsEverySubmission`
  and the scenario `EmptyAuthorityBlocksRegistry` show the consequence.

## Model

| member | source | states |
|---|---|---|
| `ReportRules.FirstFailing` | tests/ReportSubmission.test.ts:115-135 | The position it returns is at most the number of checks. Every earlier check passes, and the check at that position fails unless every check passed. The contract needs the recursive call's contract. |
| `ReportRules.SubmitVerdict` | tests/ReportSubmission.test.ts:115-135 | A submission is accepted exactly when all of these hold: the counter is below the ceiling, every field obeys its rule, the caller is a verified authority, the hash is not indexed, and a truthy authority is bound. A rejection code is always one of the eleven submit codes. |
| `ReportRules.SubmitVerdictOrder` | tests/ReportSubmission.test.ts:115-135 | Each code is returned exactly when its check is the first to fail, in the order 115, 101, 114, 103, 102, 110, 104, 113, 100, 106, 111. When every check passes the verdict is acceptance. |
| `ReportRules.EmptyAuthorityRejectsEverySubmission` | tests/ReportSubmission.test.ts:134-135 | With `""` bound as authority, no submission is accepted, whatever its fields. |
| `ReportRules.NewReport` | tests/ReportSubmission.test.ts:143-155 | The stored record carries the submitted hash, the caller as submitter and status `pending`. It obeys every field rule when the submission does. |
| `ReportRules.Amend` | tests/ReportSubmission.test.ts:175-180 | An amended report differs from the original only in description, severity and timestamp. These take the new values, and a valid amendment of a well-formed report is well-formed. |
| `ReportRules.DenseIdsCount` | tests/ReportSubmission.test.ts:143-158 | A map whose keys are exactly 0..n-1 has n entries. So the counter equals the number of stored reports. |
| `ReportRules.DistinctEvidenceHashes` | tests/ReportSubmission.test.ts:132-133 | Under an exact hash index, two different ids never hold the same evidence hash. |
| `ReportRules.CommitKeepsIndex` | tests/ReportSubmission.test.ts:156-158 | Storing a report under the next id, with its unindexed hash mapped to that id, keeps the ids dense and the index exact in both directions. |
| `ReportRules.CommitKeepsRecords` | tests/ReportSubmission.test.ts:137-158 | Storing a well-formed report under the next id and appending its fee transfer (from its submitter, to the bound authority) keeps every report well-formed, every latest update matched to its report, and exactly one transfer per report. |
| `ReportRules.AmendKeepsIndex` | tests/ReportSubmission.test.ts:175-181 | Amending a stored report keeps the hash index exact. |
| `ReportSubmission.ReportSubmissionMock.constructor` | tests/ReportSubmission.test.ts:47-67 | A new registry satisfies the invariant and is in the initial state: counter 0, ceiling 1 000 000, fee 500, no authority, empty maps and log, block height 0, caller and only authority `ST1TEST`. |
| `ReportSubmission.ReportSubmissionMock.Reset` | tests/ReportSubmission.test.ts:69-83 | Returns every field to that initial state and re-establishes the invariant. |
| `ReportSubmission.ReportSubmissionMock.IsVerifiedAuthority` | tests/ReportSubmission.test.ts:85-87 | True exactly when the principal is in the authority set. |
| `ReportSubmission.ReportSubmissionMock.SetAuthorityContract` | tests/ReportSubmission.test.ts:89-98 | Succeeds exactly when the principal is not the burn address and no authority is bound. On success it binds that principal. On failure the binding is unchanged. No other field changes. |
| `ReportSubmission.ReportSubmissionMock.SetSubmissionFee` | tests/ReportSubmission.test.ts:100-104 | Succeeds exactly when a truthy authority is bound. The fee becomes the new value on success and stays as it was otherwise. No other field changes. |
| `ReportSubmission.ReportSubmissionMock.SubmitReport` | tests/ReportSubmission.test.ts:106-160 | On rejection: the error code of the first failing check, and counter, reports, index and transfer log unchanged. On acceptance: the old counter as the new id, and the counter one higher. The report is stored under that id (status pending, block height, caller as submitter) and its hash is indexed to it. Exactly one transfer `{fee, caller, authority}` is appended. The invariant is kept, and every earlier report keeps its identity fields. |
| `ReportSubmission.ReportSubmissionMock.UpdateReport` | tests/ReportSubmission.test.ts:162-189 | Succeeds exactly when the report exists, the caller is its submitter, the description has 1..500 characters and the severity is 1..5. On failure nothing changes. On success only description, severity and timestamp of that report change, and its latest update is overwritten with the caller as updater. The invariant is kept. |
| `ReportSubmission.ReportSubmissionMock.GetReport` | tests/ReportSubmission.test.ts:191-193 | Returns a report exactly for ids 0..counter-1. That report is the stored one, it is well-formed, and the hash index maps its hash back to the id. |
| `ReportSubmission.ReportSubmissionMock.GetReportCount` | tests/ReportSubmission.test.ts:195-197 | Returns the counter. It equals the number of stored reports and the number of logged fee transfers, i.e. the number of successful submissions. |
| `ReportSubmission.ReportSubmissionMock.IsReportRegistered` | tests/ReportSubmission.test.ts:199-204 | True exactly when the hash is a key of the hash index, and so, under the invariant, exactly when some stored report carries that evidence hash. A registered hash is never empty. |

## Left out

- The vitest `describe`/`it`/`expect` harness (tests/ReportSubmission.test.ts:207-495) is not modelled as code. Its cases are replayed as the scenario methods in `report_scenarios.dfy`.
- The `@stacks/transactions` import (line 6) is not part of this model. The class never uses it.
- SubmitReport and GetReport: the source shares objects by reference, and the model does not. `submitReport` stores the caller's own `Buffer` objects in the report (tests/ReportSubmission.test.ts:144-156), and `getReport` returns the stored report object itself (line 192). A caller who later mutates one of them changes the stored report in place, while the hex key indexed at line 157 stays as it was. Examples are filling the evidence-hash buffer or assigning a report's `submitter`. After such a mutation the hash index, the identity fields and the transfer log no longer agree with the reports, and `isReportRegistered` no longer matches the stored hashes. The model holds reports and buffers as immutable values, so its invariant assumes nobody mutates them after the call.
- Fee settlement and balances are not modelled. `stxTransfers` is only an append-only log of transfer records.
- A transfer's `to` field is typed `string | null` in the source. It is modelled as a string, because a transfer is only pushed once a truthy authority is bound.
- Index keys are not hex strings. The index is keyed on the byte sequence itself. `Buffer.toString("hex")` is injective, so membership is the same.
- JavaScript numbers are modelled as unbounded integers. Fractional, NaN and out-of-range values are not modelled.
- String limits count characters of `seq<char>`. JavaScript counts UTF-16 code units, so text outside the Basic Multilingual Plane may measure differently.
- The `{ok, value}` wrapper is collapsed where it carries no information. For the set and update operations `ok` always equals `value`, so they return a `bool`. The queries always answer `ok: true`, so they return the value alone.
- Where `authorities`, `caller` and `blockHeight` get their values is not modelled. They are plain fields that the scenarios assign directly.
- `ERR_REPORT_NOT_FOUND` (107) is declared in the source but never returned by the class. `updateReport` answers a missing report with plain `false`, as the model does.
- `maxReports` has no setter in the source; the invariant relies on it only changing through `reset`. A caller who lowered the ceiling directly below the counter is not modelled.
