/** The manifest records of src/manifest/types.ts, and the counts taken over them. */
module ManifestTypes {
  import opened Common

  datatype CapturePhase =
    | IssueTypePhase
    | CustomFieldPhase
    | FieldConfigurationPhase
    | WorkflowPhase
    | WorkflowSchemePhase
    | ProjectPhase
    | BoardPhase
    | SprintPhase
    | IssuePhase

  datatype ObjectType =
    | IssueType
    | CustomField
    | FieldConfiguration
    | Workflow
    | WorkflowScheme
    | JiraProject
    | JiraBoard
    | JiraSprint
    | JiraIssue

  function ObjectTypeOf(phase: CapturePhase): ObjectType {
    match phase
    case IssueTypePhase => IssueType
    case CustomFieldPhase => CustomField
    case FieldConfigurationPhase => FieldConfiguration
    case WorkflowPhase => Workflow
    case WorkflowSchemePhase => WorkflowScheme
    case ProjectPhase => JiraProject
    case BoardPhase => JiraBoard
    case SprintPhase => JiraSprint
    case IssuePhase => JiraIssue
  }

  datatype EntryStatus = Success | Errored | Skipped | OutOfScope

  /** An object as a list endpoint returns it; `custom` is meaningful for fields only. */
  datatype ApiItem = ApiItem(id: string, name: string, custom: bool)

  /** The captured payload: the object itself and, for a custom field, the number of its contexts. */
  datatype Payload = Payload(item: ApiItem, contextCount: Option<nat>)

  datatype Entry = Entry(
    id: string,
    key: string,
    phase: CapturePhase,
    objectType: ObjectType,
    status: EntryStatus,
    data: Payload)

  datatype Section = Section(
    stageName: CapturePhase,
    apiPageCount: nat,
    apiTotalReported: Option<int>,
    capturedCount: int,
    skippedIds: seq<string>,
    skippedReasons: map<string, string>)

  datatype ManifestStatus = InProgress | Completed | CompletedWithErrors | Halted

  datatype PhaseSummary = PhaseSummary(
    phase: CapturePhase,
    totalFetched: int,
    successCount: nat,
    errorCount: nat,
    skippedCount: nat,
    completed: bool)

  datatype Reconciliation = Reconciliation(
    objectType: ObjectType,
    apiReportedTotal: Option<int>,
    totalFetched: int,
    manifestEntryCount: nat,
    reconciled: bool,
    gap: Option<int>)

  datatype Manifest = Manifest(
    backupPointId: string,
    cloudId: string,
    siteUrl: string,
    createdAt: string,
    startedAt: string,
    finalisedAt: string,
    scopeAll: bool,
    status: ManifestStatus,
    stages: seq<Section>,
    entries: seq<Entry>,
    phaseSummary: map<CapturePhase, PhaseSummary>,
    reconciliation: seq<Reconciliation>)

  /** Where an item was fetched from. */
  datatype Endpoint = IssueSearch | AttachmentContent(id: string)

  /** A row of the per-item table. */
  datatype ItemEntry = ItemEntry(
    backupPointId: string,
    objectType: ObjectType,
    objectId: ItemId,
    sourceEndpoint: Endpoint,
    ok: bool,
    errorMessage: Option<string>)

  /** A formatted point in time, which is never the empty string. */
  type Timestamp = s: string | |s| > 0 witness "t"

  function CountEntries(entries: seq<Entry>, phase: CapturePhase, statuses: set<EntryStatus>): nat {
    if entries == [] then 0
    else CountEntries(entries[..|entries| - 1], phase, statuses)
         + (var e := entries[|entries| - 1]; if e.phase == phase && e.status in statuses then 1 else 0)
  }

  const ANY_STATUS: set<EntryStatus> := {Success, Errored, Skipped, OutOfScope}

  function CountItems(items: seq<ItemEntry>, backupPointId: string, objectType: ObjectType, ok: bool): nat {
    if items == [] then 0
    else CountItems(items[..|items| - 1], backupPointId, objectType, ok)
         + (var e := items[|items| - 1];
            if e.backupPointId == backupPointId && e.objectType == objectType && e.ok == ok then 1 else 0)
  }

  lemma {:induction false} CountItemsConcat(a: seq<ItemEntry>, b: seq<ItemEntry>, id: string, t: ObjectType, ok: bool)
    ensures CountItems(a + b, id, t, ok) == CountItems(a, id, t, ok) + CountItems(b, id, t, ok)
  {
    if b == [] {
      assert a + b == a;
    } else {
      var n := |b| - 1;
      assert (a + b)[..|a + b| - 1] == a + b[..n];
      CountItemsConcat(a, b[..n], id, t, ok);
    }
  }
}
