/**
 What a stored manifest contains, field by field (src/manifest/BackupPointManifestWriter.ts): its summaries and its
 reconciliation report counted over entries and sections, and the errors that the validator reports.
 */
module ManifestContents {
  import opened Common
  import opened ManifestTypes
  import opened BackupPoints
  import opened ManifestWriter

  // Counts

  /** The places of the entries of a phase with one of these statuses. */
  function Places(entries: seq<Entry>, phase: CapturePhase, statuses: set<EntryStatus>): set<nat> {
    set i: nat | i < |entries| && entries[i].phase == phase && entries[i].status in statuses
  }

  lemma OnePlaceMore(before: set<nat>, n: nat, hit: bool, all: set<nat>)
    requires n !in before && all == if hit then before + {n} else before
    ensures |all| == |before| + if hit then 1 else 0
  {
  }

  lemma PlacesNext(entries: seq<Entry>, phase: CapturePhase, statuses: set<EntryStatus>, n: nat, hit: bool)
    requires n + 1 == |entries| && hit == (entries[n].phase == phase && entries[n].status in statuses)
    ensures n !in Places(entries[..n], phase, statuses)
    ensures var before := Places(entries[..n], phase, statuses);
            Places(entries, phase, statuses) == if hit then before + {n} else before
  {
  }

  lemma {:induction false} EntriesAreCounted(entries: seq<Entry>, phase: CapturePhase, statuses: set<EntryStatus>)
    ensures CountEntries(entries, phase, statuses) == |Places(entries, phase, statuses)|
  {
    if entries != [] {
      var n := |entries| - 1;
      var hit := entries[n].phase == phase && entries[n].status in statuses;
      EntriesAreCounted(entries[..n], phase, statuses);
      PlacesNext(entries, phase, statuses, n, hit);
      OnePlaceMore(Places(entries[..n], phase, statuses), n, hit, Places(entries, phase, statuses));
    }
  }

  /** The places of the rows of a backup about objects of a type, ok or failed. */
  function RowPlaces(items: seq<ItemEntry>, id: string, objectType: ObjectType, ok: bool): set<nat> {
    set i: nat | i < |items| && items[i].backupPointId == id && items[i].objectType == objectType && items[i].ok == ok
  }

  lemma RowPlacesNext(items: seq<ItemEntry>, id: string, objectType: ObjectType, ok: bool, n: nat, hit: bool)
    requires n + 1 == |items|
    requires hit == (items[n].backupPointId == id && items[n].objectType == objectType && items[n].ok == ok)
    ensures n !in RowPlaces(items[..n], id, objectType, ok)
    ensures var before := RowPlaces(items[..n], id, objectType, ok);
            RowPlaces(items, id, objectType, ok) == if hit then before + {n} else before
  {
  }

  lemma {:induction false} RowsAreCounted(items: seq<ItemEntry>, id: string, objectType: ObjectType, ok: bool)
    ensures CountItems(items, id, objectType, ok) == |RowPlaces(items, id, objectType, ok)|
  {
    if items != [] {
      var n := |items| - 1;
      var hit := items[n].backupPointId == id && items[n].objectType == objectType && items[n].ok == ok;
      RowsAreCounted(items[..n], id, objectType, ok);
      RowPlacesNext(items, id, objectType, ok, n, hit);
      OnePlaceMore(RowPlaces(items[..n], id, objectType, ok), n, hit, RowPlaces(items, id, objectType, ok));
    }
  }

  // The integrity rule

  /** A section violates the rule when the total is known and differs from what was captured and skipped. */
  lemma RuleIs(section: Section)
    ensures var sum := section.capturedCount + |section.skippedIds|;
            && (Violates(section) <==> section.apiTotalReported.Some? && section.apiTotalReported.value != sum)
            && (Violates(section) ==>
                  IntegrityOf(section) == IntegrityError(section.stageName, sum, section.apiTotalReported.value))
            && (!Violates(section) ==> IntegrityOf(section) == Appended)
  {
  }

  /** The places of the violating stages. */
  function ViolatingPlaces(stages: seq<Section>): set<nat> {
    set i: nat | i < |stages| && stages[i].apiTotalReported.Some?
                 && stages[i].apiTotalReported.value != stages[i].capturedCount + |stages[i].skippedIds|
  }

  lemma ViolatingPlacesNext(stages: seq<Section>, n: nat, hit: bool)
    requires n + 1 == |stages| && hit == Violates(stages[n])
    ensures n !in ViolatingPlaces(stages[..n])
    ensures var before := ViolatingPlaces(stages[..n]);
            ViolatingPlaces(stages) == if hit then before + {n} else before
  {
  }

  lemma {:induction false} ViolationsAreCounted(stages: seq<Section>)
    ensures CountViolations(stages) == |ViolatingPlaces(stages)| == |ViolationErrors(stages)|
  {
    if stages != [] {
      var n := |stages| - 1;
      ViolationsAreCounted(stages[..n]);
      ViolatingPlacesNext(stages, n, Violates(stages[n]));
      OnePlaceMore(ViolatingPlaces(stages[..n]), n, Violates(stages[n]), ViolatingPlaces(stages));
    }
  }

  // Summaries and reconciliation

  /** The last section of a phase. */
  predicate Decides(sections: seq<Section>, phase: CapturePhase, i: nat) {
    && i < |sections| && sections[i].stageName == phase
    && forall k :: i < k < |sections| ==> sections[k].stageName != phase
  }

  predicate Summarises(summary: PhaseSummary, section: Section, entries: seq<Entry>) {
    var phase := section.stageName;
    && summary.phase == phase && summary.completed
    && summary.totalFetched == section.capturedCount + |section.skippedIds|
    && summary.successCount == |Places(entries, phase, {Success})|
    && summary.errorCount == |Places(entries, phase, {Errored})|
    && summary.skippedCount == |Places(entries, phase, {Skipped, OutOfScope})|
  }

  lemma SummaryCounts(section: Section, entries: seq<Entry>)
    ensures Summarises(SummaryOf(section, entries), section, entries)
  {
    EntriesAreCounted(entries, section.stageName, {Success});
    EntriesAreCounted(entries, section.stageName, {Errored});
    EntriesAreCounted(entries, section.stageName, {Skipped, OutOfScope});
  }

  /** The summary of a phase counts its entries by status, and takes what was fetched from its last section. */
  lemma {:induction false} LastSectionDecides(sections: seq<Section>, entries: seq<Entry>, phase: CapturePhase, i: nat)
    requires Decides(sections, phase, i)
    ensures phase in PhaseSummaries(sections, entries)
    ensures Summarises(PhaseSummaries(sections, entries)[phase], sections[i], entries)
  {
    var n := |sections| - 1;
    SummaryCounts(sections[n], entries);
    if i < n {
      assert Decides(sections[..n], phase, i);
      LastSectionDecides(sections[..n], entries, phase, i);
    }
  }

  /** The report on a stage: what was reported and fetched, how many entries there are, and how many are missing. */
  predicate Reports(r: Reconciliation, section: Section, entries: seq<Entry>) {
    var fetched := section.capturedCount + |section.skippedIds|;
    && r.apiReportedTotal == section.apiTotalReported && r.totalFetched == fetched
    && r.manifestEntryCount == |Places(entries, section.stageName, {Success, Errored, Skipped, OutOfScope})|
    && r.reconciled == (section.apiTotalReported == None || section.apiTotalReported.value == fetched)
    && r.gap == (if r.reconciled then None else Some(section.apiTotalReported.value - fetched))
    && r.objectType == match section.stageName
                       case IssueTypePhase => IssueType
                       case CustomFieldPhase => CustomField
                       case FieldConfigurationPhase => FieldConfiguration
                       case WorkflowPhase => Workflow
                       case WorkflowSchemePhase => WorkflowScheme
                       case ProjectPhase => JiraProject
                       case BoardPhase => JiraBoard
                       case SprintPhase => JiraSprint
                       case IssuePhase => JiraIssue
  }

  /**
   A snapshot holds the identifiers of its backup, its sections and entries and the given status, is finalised exactly
   if that is not `in_progress`, and reports on each section.
   */
  lemma SnapshotSays(config: Config, createdAt: string, sections: seq<Section>, entries: seq<Entry>,
                     status: ManifestStatus, now: Timestamp)
    ensures var m := Snapshot(config, createdAt, sections, entries, status, now);
            && m.backupPointId == config.backupPointId && m.cloudId == config.cloudId && m.siteUrl == config.siteUrl
            && m.scopeAll == config.scopeAll && m.createdAt == createdAt && m.startedAt == createdAt
            && m.status == status && m.stages == sections && m.entries == entries
            && m.finalisedAt == (if status == InProgress then "" else now)
            && |m.reconciliation| == |sections|
            && (forall i :: 0 <= i < |sections| ==> Reports(m.reconciliation[i], sections[i], entries))
            && RowOf(m) == PointRow(m, status, if status == InProgress then None else Some(now))
  {
    forall i | 0 <= i < |sections|
      ensures Reports(ReconciliationOf(sections[i], entries), sections[i], entries)
    {
      EntriesAreCounted(entries, sections[i].stageName, ANY_STATUS);
    }
  }

  /** A new backup point holds an empty manifest in progress, with its identifiers, started at its creation. */
  lemma NewManifestSays(id: string, cloudId: string, siteUrl: string, scopeAll: bool, now: string)
    ensures var m := EmptyManifest(id, cloudId, siteUrl, scopeAll, now);
            && m.backupPointId == id && m.cloudId == cloudId && m.siteUrl == siteUrl && m.scopeAll == scopeAll
            && m.createdAt == now && m.startedAt == now && m.finalisedAt == "" && m.status == InProgress
            && m.stages == [] && m.entries == [] && m.phaseSummary == map[] && m.reconciliation == []
            && RowOf(m) == PointRow(m, InProgress, None)
  {
  }

  // The validator's errors

  /** The fields that must not be empty, by their names. */
  function Named(m: Manifest, field: string): Option<string> {
    if field == "backupPointId" then Some(m.backupPointId)
    else if field == "cloudId" then Some(m.cloudId)
    else if field == "siteUrl" then Some(m.siteUrl)
    else if field == "createdAt" then Some(m.createdAt)
    else if field == "startedAt" then Some(m.startedAt)
    else if field == "finalisedAt" then Some(m.finalisedAt)
    else None
  }

  lemma {:induction false} EmptyFieldsAmong(fields: seq<(string, string)>, field: string)
    ensures EmptyString(field) in FieldErrors(fields) <==> exists i :: 0 <= i < |fields| && fields[i] == (field, "")
    ensures forall e :: e in FieldErrors(fields) ==> e.EmptyString?
  {
    if fields != [] {
      var n := |fields| - 1;
      EmptyFieldsAmong(fields[..n], field);
      assert forall i :: 0 <= i < n ==> fields[..n][i] == fields[i];
    }
  }

  lemma {:induction false} NegativeCountsAmong(stages: seq<Section>, i: nat)
    ensures NegativeCapturedCount(i) in ShapeErrors(stages) <==> i < |stages| && stages[i].capturedCount < 0
    ensures forall e :: e in ShapeErrors(stages) ==> e.NegativeCapturedCount?
  {
    if stages != [] {
      var n := |stages| - 1;
      NegativeCountsAmong(stages[..n], i);
      if i > n {
        NoneBeyond(stages[..n], i);
      }
    }
  }

  lemma NoneBeyond(stages: seq<Section>, i: nat)
    requires i >= |stages|
    ensures NegativeCapturedCount(i) !in ShapeErrors(stages)
  {
    if stages != [] {
      NoneBeyond(stages[..|stages| - 1], i);
    }
  }

  /** A stage that captured and skipped so many of so many reported. */
  predicate Counted(section: Section, name: CapturePhase, sum: int, total: int) {
    && section.stageName == name && section.apiTotalReported == Some(total)
    && section.capturedCount + |section.skippedIds| == sum
  }

  lemma {:induction false} ViolationsAmong(stages: seq<Section>, name: CapturePhase, sum: int, total: int)
    ensures IntegrityViolation(name, sum, total) in ViolationErrors(stages)
            <==> sum != total && exists i :: 0 <= i < |stages| && Counted(stages[i], name, sum, total)
    ensures forall e :: e in ViolationErrors(stages) ==> e.IntegrityViolation?
  {
    if stages != [] {
      var n := |stages| - 1;
      ViolationsAmong(stages[..n], name, sum, total);
      RuleIs(stages[n]);
      assert forall i :: 0 <= i < n ==> stages[..n][i] == stages[i];
    }
  }

  /**
   The validator reports a field exactly if it is empty, a stage exactly if its count is negative, and a violation
   exactly for a stage that captured and skipped another number than the one reported.
   */
  method ValidationSays(m: Manifest, field: string, i: nat, name: CapturePhase, sum: int, total: int)
    returns (r: ValidationResult)
    ensures EmptyString(field) in r.errors <==> Named(m, field) == Some("")
    ensures NegativeCapturedCount(i) in r.errors <==> i < |m.stages| && m.stages[i].capturedCount < 0
    ensures IntegrityViolation(name, sum, total) in r.errors
            <==> sum != total && exists k :: 0 <= k < |m.stages| && Counted(m.stages[k], name, sum, total)
    ensures r.valid <==> r.errors == []
  {
    r := Validate(m);
    EmptyFieldsAmong(RequiredStrings(m), field);
    NamedIs(m, field);
    NegativeCountsAmong(m.stages, i);
    ViolationsAmong(m.stages, name, sum, total);
  }

  lemma NamedIs(m: Manifest, field: string)
    ensures var fields := RequiredStrings(m);
            (exists i :: 0 <= i < |fields| && fields[i] == (field, "")) <==> Named(m, field) == Some("")
  {
    var fields := RequiredStrings(m);
    assert fields[0].0 == "backupPointId" && fields[1].0 == "cloudId" && fields[2].0 == "siteUrl";
    assert fields[3].0 == "createdAt" && fields[4].0 == "startedAt" && fields[5].0 == "finalisedAt";
    if Named(m, field) == Some("") {
      var i := if field == "backupPointId" then 0
               else if field == "cloudId" then 1
               else if field == "siteUrl" then 2
               else if field == "createdAt" then 3
               else if field == "startedAt" then 4
               else 5;
      assert fields[i] == (field, "");
    }
  }
}
