/**
 The manifest writer and its stand-alone validator (src/manifest/BackupPointManifestWriter.ts).
 The writer counts integrity violations as sections arrive; the validator recomputes them from a
 stored manifest. The lemmas at the end say when the two agree.
 */
module ManifestWriter {
  import opened Common
  import opened ManifestTypes
  import opened BackupPoints

  datatype Config = Config(backupPointId: string, cloudId: string, siteUrl: string, scopeAll: bool)

  /** Everything fetched is captured or skipped with a reason, when the endpoint reports how much there was. */
  predicate Violates(section: Section) {
    section.apiTotalReported.Some? && section.capturedCount + |section.skippedIds| != section.apiTotalReported.value
  }

  function CountViolations(sections: seq<Section>): nat {
    if sections == [] then 0
    else CountViolations(sections[..|sections| - 1]) + (if Violates(sections[|sections| - 1]) then 1 else 0)
  }

  lemma CountOneMore(sections: seq<Section>, section: Section)
    ensures CountViolations(sections + [section]) == CountViolations(sections) + if Violates(section) then 1 else 0
  {
    assert (sections + [section])[..|sections|] == sections;
  }

  // What a snapshot contains

  function SummaryOf(section: Section, entries: seq<Entry>): PhaseSummary {
    PhaseSummary(
      section.stageName,
      section.capturedCount + |section.skippedIds|,
      CountEntries(entries, section.stageName, {Success}),
      CountEntries(entries, section.stageName, {Errored}),
      CountEntries(entries, section.stageName, {Skipped, OutOfScope}),
      true)
  }

  /** One summary per stage name; the last section of a name decides. */
  function PhaseSummaries(sections: seq<Section>, entries: seq<Entry>): map<CapturePhase, PhaseSummary> {
    if sections == [] then map[]
    else
      var last := sections[|sections| - 1];
      PhaseSummaries(sections[..|sections| - 1], entries)[last.stageName := SummaryOf(last, entries)]
  }

  function ReconciliationOf(section: Section, entries: seq<Entry>): Reconciliation {
    var totalFetched := section.capturedCount + |section.skippedIds|;
    var reconciled := section.apiTotalReported == None || totalFetched == section.apiTotalReported.value;
    Reconciliation(
      ObjectTypeOf(section.stageName),
      section.apiTotalReported,
      totalFetched,
      CountEntries(entries, section.stageName, ANY_STATUS),
      reconciled,
      if reconciled then None else Some(section.apiTotalReported.value - totalFetched))
  }

  function BuildReconciliation(sections: seq<Section>, entries: seq<Entry>): seq<Reconciliation> {
    seq(|sections|, i requires 0 <= i < |sections| => ReconciliationOf(sections[i], entries))
  }

  function Snapshot(config: Config, createdAt: string, sections: seq<Section>, entries: seq<Entry>,
                    status: ManifestStatus, now: string): Manifest
  {
    Manifest(
      config.backupPointId, config.cloudId, config.siteUrl,
      createdAt, createdAt, if status == InProgress then "" else now,
      config.scopeAll, status, sections, entries,
      PhaseSummaries(sections, entries),
      BuildReconciliation(sections, entries))
  }

  datatype AppendResult = Appended | IntegrityError(stageName: CapturePhase, actualSum: int, apiTotalReported: int)

  /** The error names the stage and both sides of the rule. */
  function IntegrityOf(section: Section): AppendResult {
    if Violates(section)
    then IntegrityError(section.stageName, section.capturedCount + |section.skippedIds|, section.apiTotalReported.value)
    else Appended
  }

  datatype FinalizeResult = Final(manifest: Manifest) | Omission(objectType: ObjectType, discovered: int, captured: nat)

  type DiscoveredCounts = seq<(ObjectType, Option<int>)>

  class BackupPointManifestWriter {
    const repo: BackupPointRepository
    const config: Config
    const createdAt: Timestamp
    var sections: seq<Section>
    var allEntries: seq<Entry>
    var integrityErrors: nat

    ghost predicate Valid()
      reads this, repo
    {
      && config.backupPointId in repo.points
      && integrityErrors == CountViolations(sections)
      && repo.points[config.backupPointId] == RowOf(repo.points[config.backupPointId].manifest)
      && repo.points[config.backupPointId].manifest.stages == sections
      && repo.points[config.backupPointId].manifest.entries == allEntries
    }

    /** The manifest that `getById` would return now. */
    ghost function Stored(): Manifest
      reads this, repo
      requires Valid()
    {
      repo.points[config.backupPointId].manifest
    }

    /** A taken id makes the insert, and with it the constructor, throw: then there is no writer. */
    constructor (repo: BackupPointRepository, config: Config, now: Timestamp)
      requires config.backupPointId !in repo.points
      modifies repo`points
      ensures Valid() && this.repo == repo && this.config == config && createdAt == now
      ensures sections == [] && allEntries == []
      ensures Stored() == EmptyManifest(config.backupPointId, config.cloudId, config.siteUrl, config.scopeAll, now)
      ensures repo.points == old(repo.points)[config.backupPointId := RowOf(Stored())]
    {
      this.repo := repo;
      this.config := config;
      createdAt := now;
      sections := [];
      allEntries := [];
      integrityErrors := 0;
      new;
      var _ := repo.Create(config.backupPointId, config.cloudId, config.siteUrl, config.scopeAll, now);
    }

    /** A section that violates the rule is stored all the same, and then the error is thrown. */
    method AppendStageSection(section: Section, entries: seq<Entry>, now: Timestamp) returns (r: AppendResult)
      requires Valid()
      modifies this, repo`points
      ensures Valid()
      ensures sections == old(sections) + [section] && allEntries == old(allEntries) + entries
      ensures r == IntegrityOf(section)
      ensures Stored() == Snapshot(config, createdAt, sections, allEntries,
                                   if Violates(section) then CompletedWithErrors else InProgress, now)
      ensures repo.points == old(repo.points)[config.backupPointId := RowOf(Stored())]
    {
      CountOneMore(sections, section);
      r := CheckIntegrity(section);
      if r.IntegrityError? {
        integrityErrors := integrityErrors + 1;
        Push(section, entries, CompletedWithErrors, now);
      } else {
        Push(section, entries, InProgress, now);
      }
    }

    method CheckIntegrity(section: Section) returns (r: AppendResult)
      ensures r == IntegrityOf(section)
    {
      if section.apiTotalReported != None {
        var skippedCount := |section.skippedIds|;
        var actualSum := section.capturedCount + skippedCount;
        if actualSum != section.apiTotalReported.value {
          return IntegrityError(section.stageName, actualSum, section.apiTotalReported.value);
        }
      }
      r := Appended;
    }

    /** The violation, if there is one, is counted already. */
    method Push(section: Section, entries: seq<Entry>, status: ManifestStatus, now: Timestamp)
      requires config.backupPointId in repo.points && integrityErrors == CountViolations(sections + [section])
      modifies this`sections, this`allEntries, repo`points
      ensures Valid()
      ensures sections == old(sections) + [section] && allEntries == old(allEntries) + entries
      ensures Stored() == Snapshot(config, createdAt, sections, allEntries, status, now)
      ensures repo.points == old(repo.points)[config.backupPointId := RowOf(Stored())]
    {
      sections := sections + [section];
      allEntries := allEntries + entries;
      var _ := PersistSnapshot(status, now);
    }

    method AppendEntry(objectType: ObjectType, objectId: ItemId, sourceEndpoint: Endpoint, ok: bool,
                       errorMessage: Option<string>)
      modifies repo`items
      ensures repo.items == old(repo.items)
                            + [ItemEntry(config.backupPointId, objectType, objectId, sourceEndpoint, ok, errorMessage)]
    {
      repo.InsertEntry(ItemEntry(config.backupPointId, objectType, objectId, sourceEndpoint, ok, errorMessage));
    }

    /** The first discovered count that the ok entries of its type do not match, if any. */
    function Mismatch(discovered: DiscoveredCounts): (r: Option<FinalizeResult>)
      reads repo
      ensures r == None <==> forall i :: 0 <= i < |discovered| && discovered[i].1.Some? ==>
                discovered[i].1.value == repo.CountEntriesByObjectType(config.backupPointId, discovered[i].0, true)
    {
      if discovered == [] then None
      else
        var (objectType, count) := discovered[0];
        var captured := repo.CountEntriesByObjectType(config.backupPointId, objectType, true);
        if count.Some? && captured != count.value then Some(Omission(objectType, count.value, captured))
        else Mismatch(discovered[1..])
    }

    method Finalize(status: ManifestStatus, discovered: DiscoveredCounts, now: Timestamp) returns (r: FinalizeResult)
      requires Valid() && status != InProgress
      modifies repo`points
      ensures Valid()
      ensures old(Mismatch(discovered)).Some? ==>
              r == old(Mismatch(discovered)).value && repo.points == old(repo.points)
      ensures old(Mismatch(discovered)) == None ==>
                var violated := CountViolations(sections) > 0;
                var effective := if violated && status != Halted then CompletedWithErrors else status;
                && r == Final(Snapshot(config, createdAt, sections, allEntries, effective, now))
                && Stored() == r.manifest
                && repo.points == old(repo.points)[config.backupPointId := RowOf(r.manifest)]
    {
      var i := 0;
      while i < |discovered|
        invariant 0 <= i <= |discovered|
        invariant Mismatch(discovered) == Mismatch(discovered[i..])
      {
        var (objectType, count) := discovered[i];
        if count != None {
          var captured := repo.CountEntriesByObjectType(config.backupPointId, objectType, true);
          if captured != count.value {
            return Omission(objectType, count.value, captured);
          }
        }
        i := i + 1;
      }
      var effectiveStatus := if integrityErrors > 0 && status != Halted then CompletedWithErrors else status;
      var manifest := PersistSnapshot(effectiveStatus, now);
      r := Final(manifest);
    }

    method PersistSnapshot(status: ManifestStatus, now: Timestamp) returns (manifest: Manifest)
      requires config.backupPointId in repo.points && integrityErrors == CountViolations(sections)
      modifies repo`points
      ensures Valid() && Stored() == manifest
      ensures manifest == Snapshot(config, createdAt, sections, allEntries, status, now)
      ensures repo.points == old(repo.points)[config.backupPointId := RowOf(manifest)]
    {
      var phaseSummary := BuildPhaseSummary();
      manifest := Manifest(
        config.backupPointId, config.cloudId, config.siteUrl,
        createdAt, createdAt, if status == InProgress then "" else now,
        config.scopeAll, status, sections, allEntries,
        phaseSummary, BuildReconciliation(sections, allEntries));
      repo.WriteManifest(config.backupPointId, manifest);
    }

    method BuildPhaseSummary() returns (summary: map<CapturePhase, PhaseSummary>)
      ensures summary == PhaseSummaries(sections, allEntries)
    {
      summary := map[];
      for i := 0 to |sections|
        invariant summary == PhaseSummaries(sections[..i], allEntries)
      {
        assert sections[..i + 1][..i] == sections[..i];
        summary := summary[sections[i].stageName := SummaryOf(sections[i], allEntries)];
      }
      assert sections[..|sections|] == sections;
    }
  }

  /** What the caller gets from the constructor: nothing, and nothing stored, when it throws for a taken id. */
  method NewWriter(repo: BackupPointRepository, config: Config, now: Timestamp) returns (w: BackupPointManifestWriter?)
    modifies repo`points
    ensures w == null <==> config.backupPointId in old(repo.points)
    ensures w == null ==> repo.points == old(repo.points)
    ensures w != null ==>
              && fresh(w) && w.Valid() && w.repo == repo && w.config == config && w.createdAt == now
              && w.sections == [] && w.allEntries == []
              && w.Stored() == EmptyManifest(config.backupPointId, config.cloudId, config.siteUrl, config.scopeAll, now)
              && repo.points == old(repo.points)[config.backupPointId := RowOf(w.Stored())]
  {
    if config.backupPointId in repo.points {
      return null;
    }
    w := new BackupPointManifestWriter(repo, config, now);
  }

  // The validator

  datatype ValidationError =
    | NoManifest(backupPointId: string)
    | EmptyString(field: string)
    | NegativeCapturedCount(index: nat)
    | IntegrityViolation(stageName: CapturePhase, actualSum: int, apiTotalReported: int)

  datatype ValidationResult = ValidationResult(valid: bool, errors: seq<ValidationError>)

  function RequiredStrings(m: Manifest): seq<(string, string)> {
    [ ("backupPointId", m.backupPointId), ("cloudId", m.cloudId), ("siteUrl", m.siteUrl),
      ("createdAt", m.createdAt), ("startedAt", m.startedAt), ("finalisedAt", m.finalisedAt) ]
  }

  predicate FieldsFilled(m: Manifest) {
    forall i :: 0 <= i < |RequiredStrings(m)| ==> |RequiredStrings(m)[i].1| > 0
  }

  predicate CountsNonNegative(stages: seq<Section>) {
    forall i :: 0 <= i < |stages| ==> stages[i].capturedCount >= 0
  }

  /** One error per violating stage, in stage order. */
  function ViolationErrors(stages: seq<Section>): seq<ValidationError> {
    if stages == [] then []
    else
      var s := stages[|stages| - 1];
      ViolationErrors(stages[..|stages| - 1])
      + if Violates(s)
        then [IntegrityViolation(s.stageName, s.capturedCount + |s.skippedIds|, s.apiTotalReported.value)]
        else []
  }

  /** One error per required field that is empty. */
  function FieldErrors(fields: seq<(string, string)>): seq<ValidationError> {
    if fields == [] then []
    else
      var last := fields[|fields| - 1];
      FieldErrors(fields[..|fields| - 1]) + if last.1 == "" then [EmptyString(last.0)] else []
  }

  /** One error per stage with a negative count, with its place. */
  function ShapeErrors(stages: seq<Section>): seq<ValidationError> {
    if stages == [] then []
    else
      var n := |stages| - 1;
      ShapeErrors(stages[..n]) + if stages[n].capturedCount < 0 then [NegativeCapturedCount(n)] else []
  }

  predicate IsIntegrityViolation(e: ValidationError) {
    e.IntegrityViolation?
  }

  function IntegrityErrors(errors: seq<ValidationError>): seq<ValidationError> {
    if errors == [] then []
    else IntegrityErrors(errors[..|errors| - 1])
         + if IsIntegrityViolation(errors[|errors| - 1]) then [errors[|errors| - 1]] else []
  }

  /** The integrity loop has reported exactly the violations of the stages `done`. */
  ghost predicate Checked(errors: seq<ValidationError>, shaped: bool, done: seq<Section>) {
    && (errors == [] <==> shaped && CountViolations(done) == 0)
    && IntegrityErrors(errors) == ViolationErrors(done)
  }

  lemma CheckOneMore(errors: seq<ValidationError>, shaped: bool, stages: seq<Section>, i: nat)
    requires i < |stages| && Checked(errors, shaped, stages[..i])
    ensures var s := stages[i];
            Checked(if Violates(s)
                    then errors
                         + [IntegrityViolation(s.stageName, s.capturedCount + |s.skippedIds|, s.apiTotalReported.value)]
                    else errors, shaped, stages[..i + 1])
  {
    var s := stages[i];
    assert stages[..i + 1][..i] == stages[..i];
    if Violates(s) {
      AppendError(errors, IntegrityViolation(s.stageName, s.capturedCount + |s.skippedIds|, s.apiTotalReported.value));
    }
  }

  /** The validator: the fields, then the shape of each stage, then the integrity rule. */
  method Validate(m: Manifest) returns (r: ValidationResult)
    ensures r.valid == (|r.errors| == 0)
    ensures r.valid <==> FieldsFilled(m) && CountsNonNegative(m.stages) && CountViolations(m.stages) == 0
    ensures r.errors == FieldErrors(RequiredStrings(m)) + ShapeErrors(m.stages) + ViolationErrors(m.stages)
    ensures IntegrityErrors(r.errors) == ViolationErrors(m.stages)
  {
    var errors := ValidateFields(m);
    errors := ValidateShapes(errors, m.stages, FieldsFilled(m));
    errors := ValidateIntegrity(errors, m.stages);
    r := ValidationResult(|errors| == 0, errors);
  }

  method ValidateIntegrity(before: seq<ValidationError>, stages: seq<Section>) returns (errors: seq<ValidationError>)
    requires IntegrityErrors(before) == []
    ensures errors == [] <==> before == [] && CountViolations(stages) == 0
    ensures errors == before + ViolationErrors(stages) && IntegrityErrors(errors) == ViolationErrors(stages)
  {
    errors := before;
    for i := 0 to |stages|
      invariant Checked(errors, before == [], stages[..i]) && errors == before + ViolationErrors(stages[..i])
    {
      var stage := stages[i];
      CheckOneMore(errors, before == [], stages, i);
      assert stages[..i + 1][..i] == stages[..i];
      if stage.apiTotalReported != None {
        var actualSum := stage.capturedCount + |stage.skippedIds|;
        if actualSum != stage.apiTotalReported.value {
          errors := errors + [IntegrityViolation(stage.stageName, actualSum, stage.apiTotalReported.value)];
        }
      }
    }
    assert stages[..|stages|] == stages;
  }

  method ValidateFields(m: Manifest) returns (errors: seq<ValidationError>)
    ensures errors == [] <==> FieldsFilled(m)
    ensures errors == FieldErrors(RequiredStrings(m)) && IntegrityErrors(errors) == []
  {
    errors := [];
    var required := RequiredStrings(m);
    for i := 0 to |required|
      invariant errors == [] <==> forall k :: 0 <= k < i ==> |required[k].1| > 0
      invariant errors == FieldErrors(required[..i]) && IntegrityErrors(errors) == []
    {
      assert required[..i + 1][..i] == required[..i];
      if |required[i].1| == 0 {
        AppendError(errors, EmptyString(required[i].0));
        errors := errors + [EmptyString(required[i].0)];
      }
    }
    assert required[..|required|] == required;
  }

  method ValidateShapes(before: seq<ValidationError>, stages: seq<Section>, ghost filled: bool)
    returns (errors: seq<ValidationError>)
    requires (before == [] <==> filled) && IntegrityErrors(before) == []
    ensures errors == [] <==> filled && CountsNonNegative(stages)
    ensures errors == before + ShapeErrors(stages) && IntegrityErrors(errors) == []
  {
    errors := before;
    for i := 0 to |stages|
      invariant errors == [] <==> filled && forall k :: 0 <= k < i ==> stages[k].capturedCount >= 0
      invariant errors == before + ShapeErrors(stages[..i]) && IntegrityErrors(errors) == []
    {
      assert stages[..i + 1][..i] == stages[..i];
      if stages[i].capturedCount < 0 {
        AppendError(errors, NegativeCapturedCount(i));
        errors := errors + [NegativeCapturedCount(i)];
      }
    }
    assert stages[..|stages|] == stages;
  }

  /** A backup point that is not in the store has no manifest to validate. */
  method ValidateFromStore(repo: BackupPointRepository, backupPointId: string) returns (r: ValidationResult)
    ensures r.valid == (|r.errors| == 0)
    ensures backupPointId !in repo.points ==> r.errors == [NoManifest(backupPointId)]
    ensures backupPointId in repo.points ==>
              var m := repo.points[backupPointId].manifest;
              && (r.valid <==> FieldsFilled(m) && CountsNonNegative(m.stages) && CountViolations(m.stages) == 0)
              && r.errors == FieldErrors(RequiredStrings(m)) + ShapeErrors(m.stages) + ViolationErrors(m.stages)
              && IntegrityErrors(r.errors) == ViolationErrors(m.stages)
  {
    var manifest := repo.GetById(backupPointId);
    if manifest == None {
      return ValidationResult(false, [NoManifest(backupPointId)]);
    }
    r := Validate(manifest.value);
  }

  lemma AppendError(errors: seq<ValidationError>, e: ValidationError)
    ensures IntegrityErrors(errors + [e]) == IntegrityErrors(errors) + if IsIntegrityViolation(e) then [e] else []
  {
    assert (errors + [e])[..|errors|] == errors;
  }

  // A whole backup: sections written one after another, the caller catching integrity errors

  datatype StageWrite = StageWrite(section: Section, entries: seq<Entry>)

  function Sections(writes: seq<StageWrite>): seq<Section> {
    if writes == [] then [] else Sections(writes[..|writes| - 1]) + [writes[|writes| - 1].section]
  }

  function Entries(writes: seq<StageWrite>): seq<Entry> {
    if writes == [] then [] else Entries(writes[..|writes| - 1]) + writes[|writes| - 1].entries
  }

  /** The caller's part: append every stage, carry on after an integrity error, finalize at the end. */
  method WriteBackup(writer: BackupPointManifestWriter, writes: seq<StageWrite>, now: Timestamp) returns (m: Manifest)
    requires writer.Valid() && writer.sections == [] && writer.allEntries == []
    modifies writer, writer.repo`points
    ensures writer.Valid() && writer.Stored() == m
    ensures m.stages == Sections(writes) && m.entries == Entries(writes)
    ensures m.status == if CountViolations(Sections(writes)) == 0 then Completed else CompletedWithErrors
    ensures m == Snapshot(writer.config, writer.createdAt, Sections(writes), Entries(writes), m.status, now)
  {
    for i := 0 to |writes|
      invariant writer.Valid()
      invariant writer.sections == Sections(writes[..i]) && writer.allEntries == Entries(writes[..i])
    {
      assert writes[..i + 1][..i] == writes[..i];
      var _ := writer.AppendStageSection(writes[i].section, writes[i].entries, now);
    }
    assert writes[..|writes|] == writes;
    var r := writer.Finalize(Completed, [], now);
    m := r.manifest;
  }

  lemma {:induction false} NoViolationErrors(stages: seq<Section>)
    ensures ViolationErrors(stages) == [] <==> CountViolations(stages) == 0
  {
    if stages != [] {
      NoViolationErrors(stages[..|stages| - 1]);
    }
  }

  lemma {:induction false} CountViolationsIsZero(stages: seq<Section>)
    ensures CountViolations(stages) == 0 <==> forall i :: 0 <= i < |stages| ==> !Violates(stages[i])
  {
    if stages != [] {
      var n := |stages| - 1;
      CountViolationsIsZero(stages[..n]);
      assert forall i :: 0 <= i < n ==> stages[..n][i] == stages[i];
    }
  }

  /**
   Writer and validator agree: a backup finalized as completed is stored as completed exactly when the validator
   finds no integrity violation in what the store then returns; it is valid exactly when, besides, its identifiers
   are filled in and no section claims a negative count.
   */
  method WriterAndValidatorAgree(writer: BackupPointManifestWriter, writes: seq<StageWrite>, now: Timestamp)
    returns (m: Manifest, r: ValidationResult)
    requires writer.Valid() && writer.sections == [] && writer.allEntries == []
    modifies writer, writer.repo`points
    ensures writer.Valid() && writer.Stored() == m
    ensures m.status == Completed || m.status == CompletedWithErrors
    ensures m.status == Completed <==> IntegrityErrors(r.errors) == []
    ensures r.valid <==> && m.status == Completed
                         && |writer.config.backupPointId| > 0 && |writer.config.cloudId| > 0
                         && |writer.config.siteUrl| > 0
                         && CountsNonNegative(Sections(writes))
  {
    m := WriteBackup(writer, writes, now);
    r := ValidateFromStore(writer.repo, writer.config.backupPointId);
    NoViolationErrors(m.stages);
    FilledFieldsAreIdentifiers(m);
  }

  lemma FilledFieldsAreIdentifiers(m: Manifest)
    ensures FieldsFilled(m) <==> && |m.backupPointId| > 0 && |m.cloudId| > 0 && |m.siteUrl| > 0
                                 && |m.createdAt| > 0 && |m.startedAt| > 0 && |m.finalisedAt| > 0
  {
    var required := RequiredStrings(m);
    assert |required| == 6;
    assert FieldsFilled(m) <==> |required[0].1| > 0 && |required[1].1| > 0 && |required[2].1| > 0
                                && |required[3].1| > 0 && |required[4].1| > 0 && |required[5].1| > 0;
  }

  // What the derived parts of a snapshot say

  lemma {:induction false} SummariesCoverStages(sections: seq<Section>, entries: seq<Entry>, phase: CapturePhase)
    ensures phase in PhaseSummaries(sections, entries)
            <==> exists i :: 0 <= i < |sections| && sections[i].stageName == phase
    ensures phase in PhaseSummaries(sections, entries) ==>
              exists i :: 0 <= i < |sections| && sections[i].stageName == phase
                          && PhaseSummaries(sections, entries)[phase] == SummaryOf(sections[i], entries)
  {
    if sections != [] {
      var n := |sections| - 1;
      SummariesCoverStages(sections[..n], entries, phase);
      assert forall i :: 0 <= i < n ==> sections[..n][i] == sections[i];
      if sections[n].stageName != phase && phase in PhaseSummaries(sections, entries) {
        var i :| 0 <= i < n && sections[..n][i].stageName == phase
                 && PhaseSummaries(sections[..n], entries)[phase] == SummaryOf(sections[..n][i], entries);
        assert sections[i].stageName == phase;
      }
    }
  }

  lemma {:induction false} StatusesPartition(entries: seq<Entry>, phase: CapturePhase)
    ensures CountEntries(entries, phase, ANY_STATUS)
            == CountEntries(entries, phase, {Success}) + CountEntries(entries, phase, {Errored})
               + CountEntries(entries, phase, {Skipped, OutOfScope})
  {
    if entries != [] {
      StatusesPartition(entries[..|entries| - 1], phase);
    }
  }

  /**
   Every snapshot accounts for each entry of a summarised phase exactly once, and its reconciliation report marks
   exactly the violating stages, with the missing number as gap.
   */
  lemma SnapshotAccountsForEntries(config: Config, createdAt: string, sections: seq<Section>, entries: seq<Entry>,
                                   status: ManifestStatus, now: string)
    ensures var m := Snapshot(config, createdAt, sections, entries, status, now);
            && (forall phase :: phase in m.phaseSummary ==>
                  var s := m.phaseSummary[phase];
                  s.successCount + s.errorCount + s.skippedCount == CountEntries(entries, phase, ANY_STATUS))
            && |m.reconciliation| == |m.stages|
            && (forall i :: 0 <= i < |m.stages| ==>
                  && (m.reconciliation[i].reconciled <==> !Violates(m.stages[i]))
                  && (m.reconciliation[i].gap.Some? ==>
                        m.stages[i].apiTotalReported
                        == Some(m.stages[i].capturedCount + |m.stages[i].skippedIds| + m.reconciliation[i].gap.value)))
  {
    var m := Snapshot(config, createdAt, sections, entries, status, now);
    forall phase | phase in m.phaseSummary
      ensures var s := m.phaseSummary[phase];
              s.successCount + s.errorCount + s.skippedCount == CountEntries(entries, phase, ANY_STATUS)
    {
      SummariesCoverStages(sections, entries, phase);
      StatusesPartition(entries, phase);
    }
  }
}
