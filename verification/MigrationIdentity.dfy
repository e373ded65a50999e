/** Whether the applied migrations are the ones a release expects: a staged checker and what it decides. */
module MigrationIdentity {
  import opened Wrappers

  datatype Applied = Applied(name: string, checksum: string, finished: bool, rolledBack: bool)

  datatype Expected = Expected(name: string, checksum: string)

  datatype Attestation = Attestation(
    migrationName: string,
    repositoryChecksum: string,
    databaseChecksum: string,
    classification: string,
    forensicEvidenceCommit: string,
    verifiedFrontierMigrationCount: int,
    structuralDifferenceCount: int,
    ownerAuthorizationReference: string)

  const AUTHORIZED_ATTESTATION: Attestation := Attestation(
    "0001_initial",
    "243a52df85ce3db511c692443b8e1ac385acf64ea1593a92826fe3ca9efa443d",
    "6bd1cbeb053d2ef72182258a85deedfd01e7f6a7be5add33667342db18893f87",
    "FILE_ONLY_DRIFT",
    "aec3c0df6c7d963f54afa3e08b52d35761600199",
    29,
    0,
    "SOFIA_PHASE_0_FILE_ONLY_DRIFT_ACCEPTANCE_2026-08-01")

  datatype Bridge = Bridge(
    baseCount: nat,
    baseLatest: string,
    baseFingerprint: string,
    name: string,
    checksum: string,
    reference: string)

  const AUTHORIZED_BRIDGES: seq<Bridge> := [
    Bridge(37, "20260809030000_sofia_live_operations_recovery_core",
           "130bc2f2b8338c4340f316bfb740b4933db7a5c93b8d0ddb9b1eb8a59f18d1e8",
           "20260812130000_sofia_crm_product_core",
           "adb1e236995f9e0d5b1e87108f4d098d07d53fce3dfdef0f5183bf5c0a2e62d5",
           "SOFIA_MACRO_PHASE_8_CRM_DOMAIN_EXTENSION_2026-08-13"),
    Bridge(38, "20260812130000_sofia_crm_product_core",
           "5cf17b1a70a5bacfb9e913a9870a1e39c2317dd77133aeccfa991dabb5291c45",
           "20260817120000_sofia_ai_suggestion_correlation",
           "660d122232054cd1d744b8017d90688c45cf3cb0613361ccc12e787246b77d97",
           "SOFIA_AI_SUGGESTION_CORRELATION_FORWARD_COMPATIBILITY_2026-08-17")
  ]

  datatype Status = StateCompatible | FileOnlyDrift | ForwardCompatible | ChecksumUnattested | HistoryIncompatible

  datatype Verdict = Verdict(
    compatible: bool,
    exact: bool,
    status: Status,
    appliedCount: nat,
    attestedCount: nat,
    forwardCount: nat,
    forwardEvidence: seq<string>,
    forensicCommits: seq<string>)

  /** The content fingerprint of an inventory stays abstract. */
  type Fingerprint = seq<Expected> -> string

  function Incompatible(status: Status, appliedCount: nat): Verdict {
    Verdict(false, false, status, appliedCount, 0, 0, [], [])
  }

  predicate WasApplied(row: Applied) {
    row.finished && !row.rolledBack
  }

  function AppliedRows(rows: seq<Applied>): seq<Applied> {
    if |rows| == 0 then []
    else
      var last := rows[|rows| - 1];
      AppliedRows(rows[..|rows| - 1]) + if WasApplied(last) then [last] else []
  }

  /** The checksum under a name; a later row with the same name wins. */
  function ByName(rows: seq<Applied>): map<string, string> {
    if |rows| == 0 then map[] else ByName(rows[..|rows| - 1])[rows[|rows| - 1].name := rows[|rows| - 1].checksum]
  }

  predicate UniqueExpected(expected: seq<Expected>) {
    forall j, k | 0 <= j < k < |expected| :: expected[j].name != expected[k].name
  }

  predicate UniqueApplied(rows: seq<Applied>) {
    forall j, k | 0 <= j < k < |rows| :: rows[j].name != rows[k].name
  }

  predicate BaseIs(bridge: Bridge, expected: seq<Expected>, fingerprint: Fingerprint) {
    bridge.baseCount == |expected| && |expected| > 0 && bridge.baseLatest == expected[|expected| - 1].name &&
    bridge.baseFingerprint == fingerprint(expected)
  }

  function FirstBridge(bridges: seq<Bridge>, expected: seq<Expected>, fingerprint: Fingerprint): (r: Option<Bridge>)
    ensures r.Some? ==> r.value in bridges && BaseIs(r.value, expected, fingerprint)
    ensures r.None? ==> forall b :: b in bridges ==> !BaseIs(b, expected, fingerprint)
  {
    if |bridges| == 0 then None
    else if BaseIs(bridges[0], expected, fingerprint) then Some(bridges[0])
    else FirstBridge(bridges[1..], expected, fingerprint)
  }

  function FindAuthorizedForwardBridge(additional: seq<Applied>, expected: seq<Expected>, fingerprint: Fingerprint): Option<Bridge> {
    if |additional| != 1 then None
    else
      match FirstBridge(AUTHORIZED_BRIDGES, expected, fingerprint)
      case None => None
      case Some(bridge) =>
        if additional[0].name == bridge.name && additional[0].checksum == bridge.checksum then Some(bridge) else None
  }

  function Mismatches(expected: seq<Expected>, actual: map<string, string>): seq<Expected> {
    if |expected| == 0 then []
    else
      var last := expected[|expected| - 1];
      Mismatches(expected[..|expected| - 1], actual) +
      if last.name in actual && actual[last.name] == last.checksum then [] else [last]
  }

  predicate Attests(a: Attestation, migration: Expected, actual: map<string, string>) {
    a == AUTHORIZED_ATTESTATION && a.migrationName == migration.name && a.repositoryChecksum == migration.checksum &&
    migration.name in actual && a.databaseChecksum == actual[migration.name]
  }

  predicate Attested(attestations: seq<Attestation>, migration: Expected, actual: map<string, string>) {
    exists a | a in attestations :: Attests(a, migration, actual)
  }

  predicate SomeUnattested(attestations: seq<Attestation>, mismatches: seq<Expected>, actual: map<string, string>) {
    exists x | x in mismatches :: !Attested(attestations, x, actual)
  }

  /** The verdict on rows that are the expected ones in sequence. */
  function CheckContent(rows: seq<Applied>, expected: seq<Expected>, attestations: seq<Attestation>, fingerprint: Fingerprint): Verdict
    requires |expected| <= |rows|
  {
    var additional := rows[|expected|..];
    var bridge := if |additional| == 0 then None else FindAuthorizedForwardBridge(additional, expected, fingerprint);
    if |additional| > 0 && bridge.None? then Incompatible(HistoryIncompatible, |rows|)
    else
      var actual := ByName(rows);
      var mismatches := Mismatches(expected, actual);
      var commits := seq(|mismatches|, _ => AUTHORIZED_ATTESTATION.forensicEvidenceCommit);
      if |mismatches| == 0 && |additional| == 0 then Verdict(true, true, StateCompatible, |rows|, 0, 0, [], [])
      else if SomeUnattested(attestations, mismatches, actual) then Incompatible(ChecksumUnattested, |rows|)
      else if |additional| > 0 then
        Verdict(true, false, ForwardCompatible, |rows|, |mismatches|, |additional|,
                if bridge.Some? then [bridge.value.reference] else [], commits)
      else Verdict(true, false, FileOnlyDrift, |rows|, |mismatches|, 0, [], commits)
  }

  function EvaluateMigrationIdentity(rows: seq<Applied>, expected: seq<Expected>, attestations: seq<Attestation>,
                                     fingerprint: Fingerprint): Verdict
  {
    var applied := AppliedRows(rows);
    if (exists k | 0 <= k < |rows| :: !rows[k].finished || rows[k].rolledBack) || |expected| == 0 || |applied| < |expected| then
      Incompatible(HistoryIncompatible, |applied|)
    else if !UniqueExpected(expected) || !UniqueApplied(applied) ||
            (exists k | 0 <= k < |expected| :: applied[k].name != expected[k].name) then
      Incompatible(HistoryIncompatible, |applied|)
    else CheckContent(applied, expected, attestations, fingerprint)
  }

  // The declarative specification

  /** The bridge starts at this inventory and leads to this row. */
  predicate Fits(bridge: Bridge, row: Applied, expected: seq<Expected>, fingerprint: Fingerprint) {
    BaseIs(bridge, expected, fingerprint) && row.name == bridge.name && row.checksum == bridge.checksum
  }

  /** Position by position the same migrations, plus at most one authorized next one. */
  ghost predicate SameHistory(rows: seq<Applied>, expected: seq<Expected>, fingerprint: Fingerprint) {
    && (forall k :: 0 <= k < |rows| ==> rows[k].finished && !rows[k].rolledBack)
    && UniqueApplied(rows)
    && UniqueExpected(expected)
    && 0 < |expected| <= |rows| <= |expected| + 1
    && (forall k :: 0 <= k < |expected| ==> rows[k].name == expected[k].name)
    && (|rows| == |expected| + 1 ==> exists b :: b in AUTHORIZED_BRIDGES && Fits(b, rows[|expected|], expected, fingerprint))
  }

  /** The one checksum difference that has been accepted. */
  predicate KnownDrift(row: Applied, migration: Expected, attestations: seq<Attestation>) {
    AUTHORIZED_ATTESTATION in attestations && migration.name == "0001_initial" &&
    migration.checksum == AUTHORIZED_ATTESTATION.repositoryChecksum && row.checksum == AUTHORIZED_ATTESTATION.databaseChecksum
  }

  ghost predicate SameContent(rows: seq<Applied>, expected: seq<Expected>, attestations: seq<Attestation>)
    requires |expected| <= |rows|
  {
    forall k :: 0 <= k < |expected| ==>
      rows[k].checksum == expected[k].checksum || KnownDrift(rows[k], expected[k], attestations)
  }

  lemma {:induction false} AllApplied(rows: seq<Applied>)
    ensures (forall k :: 0 <= k < |rows| ==> rows[k].finished && !rows[k].rolledBack) ==> AppliedRows(rows) == rows
  {
    if |rows| > 0 {
      AllApplied(rows[..|rows| - 1]);
      assert rows == rows[..|rows| - 1] + [rows[|rows| - 1]];
    }
  }

  /** With unique names, looking a checksum up by name is looking at its position. */
  lemma {:induction false} NameIsPosition(rows: seq<Applied>, k: nat)
    requires UniqueApplied(rows) && k < |rows|
    ensures rows[k].name in ByName(rows) && ByName(rows)[rows[k].name] == rows[k].checksum
  {
    var n := |rows| - 1;
    if k < n {
      NameIsPosition(rows[..n], k);
      assert rows[..n][k] == rows[k];
    }
  }

  lemma {:induction false} MismatchIsPosition(expected: seq<Expected>, actual: map<string, string>, x: Expected)
    ensures x in Mismatches(expected, actual) <==> x in expected && !(x.name in actual && actual[x.name] == x.checksum)
  {
    if |expected| > 0 {
      var n := |expected| - 1;
      MismatchIsPosition(expected[..n], actual, x);
      assert expected == expected[..n] + [expected[n]];
    }
  }

  lemma BridgeIsUnique(b: Bridge, c: Bridge, expected: seq<Expected>, fingerprint: Fingerprint)
    requires b in AUTHORIZED_BRIDGES && c in AUTHORIZED_BRIDGES && BaseIs(b, expected, fingerprint) && BaseIs(c, expected, fingerprint)
    ensures b == c
  {
  }

  lemma BridgeFound(additional: seq<Applied>, expected: seq<Expected>, fingerprint: Fingerprint)
    requires |additional| == 1
    ensures FindAuthorizedForwardBridge(additional, expected, fingerprint).Some? <==>
            exists b :: b in AUTHORIZED_BRIDGES && Fits(b, additional[0], expected, fingerprint)
  {
    hide AUTHORIZED_BRIDGES, BaseIs;
    if b :| b in AUTHORIZED_BRIDGES && Fits(b, additional[0], expected, fingerprint) {
      var found := FirstBridge(AUTHORIZED_BRIDGES, expected, fingerprint);
      BridgeIsUnique(b, found.value, expected, fingerprint);
    }
  }

  lemma MismatchAt(row: Applied, migration: Expected, expected: seq<Expected>, attestations: seq<Attestation>,
                   actual: map<string, string>)
    requires migration in expected && migration.name in actual && actual[migration.name] == row.checksum
    ensures migration in Mismatches(expected, actual) <==> row.checksum != migration.checksum
    ensures Attested(attestations, migration, actual) <==> KnownDrift(row, migration, attestations)
  {
    MismatchIsPosition(expected, actual, migration);
    DriftIsAttested(row, migration, attestations, actual);
  }

  /** Content is the same exactly when every mismatch is attested. */
  lemma ContentChecked(rows: seq<Applied>, expected: seq<Expected>, attestations: seq<Attestation>)
    requires UniqueApplied(rows) && |expected| <= |rows| && forall k :: 0 <= k < |expected| ==> rows[k].name == expected[k].name
    ensures SameContent(rows, expected, attestations) <==>
            forall x :: x in Mismatches(expected, ByName(rows)) ==> Attested(attestations, x, ByName(rows))
  {
    hide KnownDrift, Attested, ByName, Mismatches;
    var actual := ByName(rows);
    var mismatches := Mismatches(expected, actual);
    forall k | 0 <= k < |expected|
      ensures expected[k] in mismatches <==> rows[k].checksum != expected[k].checksum
      ensures Attested(attestations, expected[k], actual) <==> KnownDrift(rows[k], expected[k], attestations)
    {
      NameIsPosition(rows, k);
      MismatchAt(rows[k], expected[k], expected, attestations, actual);
    }
    forall x | x in mismatches
      ensures exists k :: 0 <= k < |expected| && expected[k] == x
    {
      MismatchIsPosition(expected, actual, x);
    }
  }

  lemma DriftIsAttested(row: Applied, migration: Expected, attestations: seq<Attestation>, actual: map<string, string>)
    requires migration.name in actual && actual[migration.name] == row.checksum
    ensures Attested(attestations, migration, actual) <==> KnownDrift(row, migration, attestations)
  {
    if KnownDrift(row, migration, attestations) {
      assert Attests(AUTHORIZED_ATTESTATION, migration, actual);
    }
  }

  /** The checks that come before the comparison of content. */
  ghost predicate SameSequence(rows: seq<Applied>, expected: seq<Expected>) {
    && (forall k :: 0 <= k < |rows| ==> rows[k].finished && !rows[k].rolledBack)
    && UniqueApplied(rows)
    && UniqueExpected(expected)
    && 0 < |expected| <= |rows|
    && (forall k :: 0 <= k < |expected| ==> rows[k].name == expected[k].name)
  }

  lemma CompatibleInSequence(rows: seq<Applied>, expected: seq<Expected>, attestations: seq<Attestation>, fingerprint: Fingerprint)
    requires SameSequence(rows, expected)
    ensures EvaluateMigrationIdentity(rows, expected, attestations, fingerprint) ==
            CheckContent(rows, expected, attestations, fingerprint)
  {
    hide CheckContent;
    AllApplied(rows);
  }

  lemma ContentVerdict(rows: seq<Applied>, expected: seq<Expected>, attestations: seq<Attestation>, fingerprint: Fingerprint)
    requires |expected| <= |rows|
    ensures CheckContent(rows, expected, attestations, fingerprint).compatible <==>
            (|rows| > |expected| ==> FindAuthorizedForwardBridge(rows[|expected|..], expected, fingerprint).Some?) &&
            forall x :: x in Mismatches(expected, ByName(rows)) ==> Attested(attestations, x, ByName(rows))
  {
    hide FindAuthorizedForwardBridge, Attested, Mismatches, ByName, AUTHORIZED_ATTESTATION;
    assert |rows[|expected|..]| == |rows| - |expected|;
    AttestedMeans(attestations, Mismatches(expected, ByName(rows)), ByName(rows));
    hide SomeUnattested;
  }

  lemma AttestedMeans(attestations: seq<Attestation>, mismatches: seq<Expected>, actual: map<string, string>)
    ensures SomeUnattested(attestations, mismatches, actual) <==>
            !forall x :: x in mismatches ==> Attested(attestations, x, actual)
    ensures SomeUnattested(attestations, mismatches, actual) ==> |mismatches| > 0
  {
    hide Attested;
  }

  lemma OutOfSequence(rows: seq<Applied>, expected: seq<Expected>, attestations: seq<Attestation>, fingerprint: Fingerprint)
    requires !SameSequence(rows, expected)
    ensures !EvaluateMigrationIdentity(rows, expected, attestations, fingerprint).compatible
  {
    hide FindAuthorizedForwardBridge, Attested, Mismatches, ByName, AppliedRows, UniqueApplied, UniqueExpected, AUTHORIZED_ATTESTATION;
    AllApplied(rows);
  }

  /** The checker says compatible exactly when history and content are the expected ones, by position. */
  lemma CompatibleMeans(rows: seq<Applied>, expected: seq<Expected>, attestations: seq<Attestation>, fingerprint: Fingerprint)
    ensures EvaluateMigrationIdentity(rows, expected, attestations, fingerprint).compatible <==>
            SameHistory(rows, expected, fingerprint) && SameContent(rows, expected, attestations)
  {
    hide EvaluateMigrationIdentity, CheckContent, FindAuthorizedForwardBridge, Fits, SameContent, AUTHORIZED_BRIDGES;
    if SameSequence(rows, expected) {
      CompatibleInSequence(rows, expected, attestations, fingerprint);
      ContentVerdict(rows, expected, attestations, fingerprint);
      ContentChecked(rows, expected, attestations);
      if |rows| == |expected| + 1 {
        BridgeFound(rows[|expected|..], expected, fingerprint);
      } else if |rows| > |expected| + 1 {
        OnlyOneMore(rows, expected, fingerprint);
      }
    } else {
      OutOfSequence(rows, expected, attestations, fingerprint);
    }
  }

  lemma OnlyOneMore(rows: seq<Applied>, expected: seq<Expected>, fingerprint: Fingerprint)
    requires |rows| > |expected| + 1
    ensures FindAuthorizedForwardBridge(rows[|expected|..], expected, fingerprint).None?
  {
  }

  /** At most one checksum may differ, and it is that of 0001_initial. */
  lemma OneDriftAtMost(rows: seq<Applied>, expected: seq<Expected>, attestations: seq<Attestation>, fingerprint: Fingerprint,
                       j: nat, k: nat)
    requires EvaluateMigrationIdentity(rows, expected, attestations, fingerprint).compatible
    requires j < |expected| <= |rows| && k < |expected|
    requires rows[j].checksum != expected[j].checksum && rows[k].checksum != expected[k].checksum
    ensures j == k && expected[j].name == "0001_initial"
  {
    CompatibleMeans(rows, expected, attestations, fingerprint);
    assert KnownDrift(rows[j], expected[j], attestations) && KnownDrift(rows[k], expected[k], attestations);
  }

  lemma {:induction false} NoMismatchesMeans(expected: seq<Expected>, actual: map<string, string>)
    ensures |Mismatches(expected, actual)| == 0 <==>
            forall k :: 0 <= k < |expected| ==> expected[k].name in actual && actual[expected[k].name] == expected[k].checksum
  {
    if |expected| > 0 {
      NoMismatchesMeans(expected[..|expected| - 1], actual);
    }
  }

  /** Which compatible verdict is given: exact, forward by one bridge, or accepted drift alone. */
  lemma VerdictMeans(rows: seq<Applied>, expected: seq<Expected>, attestations: seq<Attestation>, fingerprint: Fingerprint)
    requires EvaluateMigrationIdentity(rows, expected, attestations, fingerprint).compatible
    ensures var v := EvaluateMigrationIdentity(rows, expected, attestations, fingerprint);
      && |expected| <= |rows|
      && v.appliedCount == |rows| && v.forwardCount == |rows| - |expected| <= 1
      && (v.exact <==> v.status == StateCompatible)
      && (v.exact <==> |rows| == |expected| && forall k :: 0 <= k < |expected| ==> rows[k].checksum == expected[k].checksum)
      && (v.status == ForwardCompatible <==> |rows| > |expected|)
      && (v.status == ForwardCompatible ==> |v.forwardEvidence| == 1)
      && |v.forensicCommits| == v.attestedCount
  {
    hide EvaluateMigrationIdentity, Attested, SameContent, FindAuthorizedForwardBridge, Fits, AUTHORIZED_ATTESTATION;
    hide AUTHORIZED_BRIDGES;
    CompatibleMeans(rows, expected, attestations, fingerprint);
    CompatibleInSequence(rows, expected, attestations, fingerprint);
    NoMismatchesMeans(expected, ByName(rows));
    forall k | 0 <= k < |expected|
      ensures rows[k].name in ByName(rows) && ByName(rows)[rows[k].name] == rows[k].checksum
    {
      NameIsPosition(rows, k);
    }
  }

  /** The rows that were finished and not rolled back. */
  function AppliedCount(rows: seq<Applied>): nat {
    |set k | 0 <= k < |rows| && WasApplied(rows[k])|
  }

  lemma AppliedMore(rows: seq<Applied>)
    requires |rows| > 0
    ensures AppliedCount(rows) == AppliedCount(rows[..|rows| - 1]) + if WasApplied(rows[|rows| - 1]) then 1 else 0
  {
    var n := |rows| - 1;
    var before := set k | 0 <= k < n && WasApplied(rows[..n][k]);
    var all := set k | 0 <= k < |rows| && WasApplied(rows[k]);
    assert forall k :: 0 <= k < n ==> rows[..n][k] == rows[k];
    assert all == before + if WasApplied(rows[n]) then {n} else {};
  }

  lemma {:induction false} AppliedAreCounted(rows: seq<Applied>)
    ensures |AppliedRows(rows)| == AppliedCount(rows)
  {
    if |rows| > 0 {
      hide AppliedCount;
      AppliedMore(rows);
      AppliedAreCounted(rows[..|rows| - 1]);
    }
  }

  /** An incompatible verdict carries nothing but its reason and the number of applied rows. */
  predicate Bare(v: Verdict, status: Status, count: nat) {
    v == Verdict(false, false, status, count, 0, 0, [], [])
  }

  lemma ContentReason(rows: seq<Applied>, expected: seq<Expected>, attestations: seq<Attestation>, fingerprint: Fingerprint)
    requires |expected| <= |rows| && !CheckContent(rows, expected, attestations, fingerprint).compatible
    ensures var bridged := |rows| > |expected| ==> FindAuthorizedForwardBridge(rows[|expected|..], expected, fingerprint).Some?;
      Bare(CheckContent(rows, expected, attestations, fingerprint), if bridged then ChecksumUnattested else HistoryIncompatible, |rows|)
  {
    hide FindAuthorizedForwardBridge, Attested, Mismatches, ByName, AUTHORIZED_ATTESTATION;
    assert |rows[|expected|..]| == |rows| - |expected|;
  }

  lemma SequenceReason(rows: seq<Applied>, expected: seq<Expected>, attestations: seq<Attestation>, fingerprint: Fingerprint)
    requires !SameSequence(rows, expected)
    ensures Bare(EvaluateMigrationIdentity(rows, expected, attestations, fingerprint), HistoryIncompatible, AppliedCount(rows))
  {
    hide CheckContent, AppliedRows, UniqueApplied, UniqueExpected, AppliedCount;
    AllApplied(rows);
    AppliedAreCounted(rows);
  }

  lemma AllAreCounted(rows: seq<Applied>)
    requires forall k :: 0 <= k < |rows| ==> rows[k].finished && !rows[k].rolledBack
    ensures AppliedCount(rows) == |rows|
  {
    AllApplied(rows);
    AppliedAreCounted(rows);
  }

  /** An incompatible state is blamed on its content exactly when its history is the expected one. */
  lemma IncompatibleMeans(rows: seq<Applied>, expected: seq<Expected>, attestations: seq<Attestation>, fingerprint: Fingerprint)
    requires !EvaluateMigrationIdentity(rows, expected, attestations, fingerprint).compatible
    ensures var v := EvaluateMigrationIdentity(rows, expected, attestations, fingerprint);
      Bare(v, if SameHistory(rows, expected, fingerprint) then ChecksumUnattested else HistoryIncompatible, AppliedCount(rows))
  {
    hide EvaluateMigrationIdentity, CheckContent, FindAuthorizedForwardBridge, Fits, AUTHORIZED_BRIDGES, AppliedCount;
    if SameSequence(rows, expected) {
      AllAreCounted(rows);
      CompatibleInSequence(rows, expected, attestations, fingerprint);
      ContentReason(rows, expected, attestations, fingerprint);
      if |rows| == |expected| + 1 {
        BridgeFound(rows[|expected|..], expected, fingerprint);
      } else if |rows| > |expected| + 1 {
        OnlyOneMore(rows, expected, fingerprint);
      }
    } else {
      SequenceReason(rows, expected, attestations, fingerprint);
    }
  }

  /** The one accepted drift, and the two accepted steps beyond the expected history, by their own names and contents. */
  lemma AcceptedByName(rows: seq<Applied>, expected: seq<Expected>, attestations: seq<Attestation>, fingerprint: Fingerprint, k: nat)
    requires EvaluateMigrationIdentity(rows, expected, attestations, fingerprint).compatible
    requires k < |expected| <= |rows|
    ensures rows[k].checksum != expected[k].checksum ==>
      && expected[k] == Expected("0001_initial", "243a52df85ce3db511c692443b8e1ac385acf64ea1593a92826fe3ca9efa443d")
      && rows[k].checksum == "6bd1cbeb053d2ef72182258a85deedfd01e7f6a7be5add33667342db18893f87"
    ensures |rows| > |expected| ==>
      var next := rows[|expected|];
      || (|expected| == 37 && expected[36].name == "20260809030000_sofia_live_operations_recovery_core" &&
          next.name == "20260812130000_sofia_crm_product_core" &&
          next.checksum == "adb1e236995f9e0d5b1e87108f4d098d07d53fce3dfdef0f5183bf5c0a2e62d5")
      || (|expected| == 38 && expected[37].name == "20260812130000_sofia_crm_product_core" &&
          next.name == "20260817120000_sofia_ai_suggestion_correlation" &&
          next.checksum == "660d122232054cd1d744b8017d90688c45cf3cb0613361ccc12e787246b77d97")
  {
    hide EvaluateMigrationIdentity;
    CompatibleMeans(rows, expected, attestations, fingerprint);
    assert rows[k].checksum == expected[k].checksum || KnownDrift(rows[k], expected[k], attestations);
    if |rows| > |expected| {
      var b :| b in AUTHORIZED_BRIDGES && Fits(b, rows[|expected|], expected, fingerprint);
    }
  }

  predicate Differs(migration: Expected, actual: map<string, string>) {
    !(migration.name in actual && actual[migration.name] == migration.checksum)
  }

  function DifferenceCount(expected: seq<Expected>, actual: map<string, string>): nat {
    |set k | 0 <= k < |expected| && Differs(expected[k], actual)|
  }

  lemma OneMoreDifference(expected: seq<Expected>, actual: map<string, string>)
    requires |expected| > 0
    ensures DifferenceCount(expected, actual) ==
            DifferenceCount(expected[..|expected| - 1], actual) + if Differs(expected[|expected| - 1], actual) then 1 else 0
  {
    hide Differs;
    var n := |expected| - 1;
    var before := set k | 0 <= k < n && Differs(expected[..n][k], actual);
    var all := set k | 0 <= k < |expected| && Differs(expected[k], actual);
    assert forall k :: 0 <= k < n ==> expected[..n][k] == expected[k];
    assert all == before + if Differs(expected[n], actual) then {n} else {};
  }

  lemma {:induction false} MismatchesAreCounted(expected: seq<Expected>, actual: map<string, string>)
    ensures |Mismatches(expected, actual)| == DifferenceCount(expected, actual)
  {
    if |expected| > 0 {
      hide DifferenceCount;
      OneMoreDifference(expected, actual);
      MismatchesAreCounted(expected[..|expected| - 1], actual);
    }
  }

  /** What a compatible verdict reports: the checksums that differ, the commit that explains them, and the authorization of a step beyond. */
  lemma EvidenceMeans(rows: seq<Applied>, expected: seq<Expected>, attestations: seq<Attestation>, fingerprint: Fingerprint)
    requires EvaluateMigrationIdentity(rows, expected, attestations, fingerprint).compatible
    ensures |expected| <= |rows|
    ensures var v := EvaluateMigrationIdentity(rows, expected, attestations, fingerprint);
      && v.attestedCount == |set k | 0 <= k < |expected| && rows[k].checksum != expected[k].checksum|
      && (forall c :: c in v.forensicCommits ==> c == "aec3c0df6c7d963f54afa3e08b52d35761600199")
      && v.forwardEvidence ==
         if |rows| == |expected| then []
         else if |expected| == 37 then ["SOFIA_MACRO_PHASE_8_CRM_DOMAIN_EXTENSION_2026-08-13"]
         else ["SOFIA_AI_SUGGESTION_CORRELATION_FORWARD_COMPATIBILITY_2026-08-17"]
  {
    hide EvaluateMigrationIdentity, Attested, SameContent, Fits, Differs, ByName;
    CompatibleMeans(rows, expected, attestations, fingerprint);
    CompatibleInSequence(rows, expected, attestations, fingerprint);
    DifferencesCounted(rows, expected);
    hide Mismatches;
  }

  lemma DifferencesCounted(rows: seq<Applied>, expected: seq<Expected>)
    requires SameSequence(rows, expected)
    ensures |Mismatches(expected, ByName(rows))| == |set k | 0 <= k < |expected| && rows[k].checksum != expected[k].checksum|
  {
    MismatchesAreCounted(expected, ByName(rows));
    forall k | 0 <= k < |expected|
      ensures Differs(expected[k], ByName(rows)) <==> rows[k].checksum != expected[k].checksum
    {
      NameIsPosition(rows, k);
    }
    assert (set k | 0 <= k < |expected| && Differs(expected[k], ByName(rows))) ==
           set k | 0 <= k < |expected| && rows[k].checksum != expected[k].checksum;
  }
}
