/**
 The context-node stages (src/capture/ContextNodeCaptureOrchestrator.ts): each stage paginates one
 or more list endpoints and turns what it got into a manifest section, whose counts the manifest
 writer then checks. A stage whose fetches throw yields an error section and halts the run.
 */
module ContextCapture {
  import opened Common
  import opened ManifestTypes
  import opened ManifestWriter
  import P = Pagination

  type Server = P.Server<ApiItem>

  /**
   What a flat-array endpoint answers: an array; a JSON string, which is spread into its code points while its length
   counts code units; or anything else, or an array with a null in it, which makes the stage throw.
   */
  datatype FlatReply = Array(items: seq<ApiItem>) | Text(codePoints: seq<ApiItem>, codeUnits: nat) | Unusable

  /** All list endpoints of one Jira site. */
  datatype Site = Site(
    issueTypes: FlatReply,
    fields: FlatReply,
    contexts: string -> Server,
    fieldConfigurations: Server,
    workflows: Server,
    workflowSchemes: Server,
    boards: string -> Server,
    sprints: string -> Server)

  datatype StageResult = StageResult(
    stageName: CapturePhase,
    entries: seq<Entry>,
    section: Section,
    ok: bool,
    systemFieldsSkipped: nat)

  /** Page size, and how many fetches of each pagination run are observed. */
  datatype Limits = Limits(maxResults: nat, budget: nat)

  function Fetch(server: Server, limits: Limits): P.Outcome<ApiItem> {
    P.Run(server, limits.maxResults, P.Start(), limits.budget)
  }

  /** The pagination run comes to an end, so that the stage that awaits it does too. */
  predicate Settles(server: Server, limits: Limits) {
    !Fetch(server, limits).StillFetching?
  }

  ghost predicate SiteSettles(site: Site, limits: Limits) {
    && limits.budget >= 1
    && (forall id :: Settles(site.contexts(id), limits))
    && Settles(site.fieldConfigurations, limits)
    && Settles(site.workflows, limits)
    && Settles(site.workflowSchemes, limits)
    && (forall key :: Settles(site.boards(key), limits))
    && (forall id :: Settles(site.sprints(id), limits))
  }

  /** The single-page adapter around a flat-array endpoint. */
  function FlatServer(reply: FlatReply): Server {
    (call, startAt, maxResults) =>
      match reply
      case Array(items) => P.Delivered(P.Page(Some(items), None, Some(|items|), Some(true)))
      case Text(codePoints, codeUnits) => P.Delivered(P.Page(Some(codePoints), None, Some(codeUnits), Some(true)))
      case Unusable => P.Rejected
  }

  // What each stage produces

  /** Workflows are keyed by their name, which is also their id. */
  function EntryFor(phase: CapturePhase, item: ApiItem): Entry {
    Entry(item.id, if phase == WorkflowPhase then item.id else item.name, phase, ObjectTypeOf(phase), Success,
          Payload(item, None))
  }

  function EntriesFor(phase: CapturePhase, items: seq<ApiItem>): (entries: seq<Entry>)
    ensures |entries| == |items|
  {
    seq(|items|, i requires 0 <= i < |items| => EntryFor(phase, items[i]))
  }

  function ErrorSection(stageName: CapturePhase): Section {
    Section(stageName, 0, None, 0, [], map[])
  }

  function ErrorStage(stageName: CapturePhase): StageResult {
    StageResult(stageName, [], ErrorSection(stageName), false, 0)
  }

  /** A stage that maps one fetched list. */
  function ListStage(phase: CapturePhase, outcome: P.Outcome<ApiItem>): StageResult {
    match outcome
    case Finished(r, _) =>
      var entries := EntriesFor(phase, r.items);
      StageResult(phase, entries, Section(phase, r.pagesFetched, r.apiReportedTotal, |entries|, [], map[]), true, 0)
    case _ => ErrorStage(phase)
  }

  /** A failed context fetch counts as no context and leaves the stage alone. */
  function ContextCount(outcome: P.Outcome<ApiItem>): nat {
    if outcome.Finished? then outcome.result.totalFetched else 0
  }

  function FieldEntry(field: ApiItem, contextCount: nat): Entry {
    Entry(field.id, field.name, CustomFieldPhase, CustomField, Success, Payload(field, Some(contextCount)))
  }

  function FieldEntries(fields: seq<ApiItem>, contexts: string -> Server, limits: Limits): seq<Entry> {
    if fields == [] then []
    else
      var last := fields[|fields| - 1];
      FieldEntries(fields[..|fields| - 1], contexts, limits)
      + if last.custom then [FieldEntry(last, ContextCount(Fetch(contexts(last.id), limits)))] else []
  }

  function SystemFieldIds(fields: seq<ApiItem>): seq<string> {
    if fields == [] then []
    else
      var last := fields[|fields| - 1];
      SystemFieldIds(fields[..|fields| - 1]) + if last.custom then [] else [last.id]
  }

  function SystemFieldReasons(fields: seq<ApiItem>): map<string, string> {
    if fields == [] then map[]
    else
      var last := fields[|fields| - 1];
      var reasons := SystemFieldReasons(fields[..|fields| - 1]);
      if last.custom then reasons else reasons[last.id := "system_field"]
  }

  function FieldStage(outcome: P.Outcome<ApiItem>, contexts: string -> Server, limits: Limits): StageResult {
    match outcome
    case Finished(r, _) =>
      var entries := FieldEntries(r.items, contexts, limits);
      var skippedIds := SystemFieldIds(r.items);
      StageResult(CustomFieldPhase, entries,
                  Section(CustomFieldPhase, r.pagesFetched, r.apiReportedTotal, |entries|, skippedIds,
                          SystemFieldReasons(r.items)),
                  true, |skippedIds|)
    case _ => ErrorStage(CustomFieldPhase)
  }

  /** What a stage has summed over its parents so far. */
  datatype Totals = Totals(entries: seq<Entry>, pages: nat, reported: int)

  /** An endpoint that reports no total is taken at its word for what it delivered. */
  function ReportedOrFetched(r: P.Result<ApiItem>): int {
    if r.apiReportedTotal.Some? then r.apiReportedTotal.value else r.totalFetched
  }

  function AddParent(phase: CapturePhase, sum: Totals, outcome: P.Outcome<ApiItem>): Option<Totals> {
    if !outcome.Finished? then None
    else
      Some(Totals(
        sum.entries + EntriesFor(phase, outcome.result.items),
        sum.pages + outcome.result.pagesFetched,
        sum.reported + ReportedOrFetched(outcome.result)))
  }

  /** What the totals become over further parents; `None` once a parent's list could not be fetched. */
  function SumOver(phase: CapturePhase, parents: seq<string>, serverOf: string -> Server, limits: Limits, sum: Totals)
    : Option<Totals>
  {
    if parents == [] then Some(sum)
    else
      var next := AddParent(phase, sum, Fetch(serverOf(parents[0]), limits));
      if next == None then None else SumOver(phase, parents[1..], serverOf, limits, next.value)
  }

  const NOTHING: Totals := Totals([], 0, 0)

  function SumOverParents(phase: CapturePhase, parents: seq<string>, serverOf: string -> Server,
                          limits: Limits): Option<Totals>
  {
    SumOver(phase, parents, serverOf, limits, NOTHING)
  }

  /** A stage summed over parents: boards over projects, sprints over boards. */
  function SummedStage(phase: CapturePhase, sum: Option<Totals>): StageResult {
    match sum
    case Some(t) =>
      StageResult(phase, t.entries, Section(phase, t.pages, Some(t.reported), |t.entries|, [], map[]), true, 0)
    case None => ErrorStage(phase)
  }

  /** The capture order; a later stage refers to what an earlier one captured. */
  const ORDER: seq<CapturePhase> :=
    [ IssueTypePhase, CustomFieldPhase, FieldConfigurationPhase, WorkflowPhase, WorkflowSchemePhase,
      BoardPhase, SprintPhase ]

  const BOARD_STAGE: nat := 5

  function Ids(entries: seq<Entry>): seq<string> {
    seq(|entries|, i requires 0 <= i < |entries| => entries[i].id)
  }

  /** The stage at place `k` of the fixed order, given the stages before it. */
  function StageAt(site: Site, projects: seq<string>, limits: Limits, k: nat, prior: seq<StageResult>): (r: StageResult)
    requires k < |ORDER| && |prior| == k
    ensures r.stageName == r.section.stageName == ORDER[k]
  {
    match k
    case 0 => ListStage(IssueTypePhase, Fetch(FlatServer(site.issueTypes), limits))
    case 1 => FieldStage(Fetch(FlatServer(site.fields), limits), site.contexts, limits)
    case 2 => ListStage(FieldConfigurationPhase, Fetch(site.fieldConfigurations, limits))
    case 3 => ListStage(WorkflowPhase, Fetch(site.workflows, limits))
    case 4 => ListStage(WorkflowSchemePhase, Fetch(site.workflowSchemes, limits))
    case 5 => SummedStage(BoardPhase, SumOverParents(BoardPhase, projects, site.boards, limits))
    case _ => SummedStage(SprintPhase,
                          SumOverParents(SprintPhase, Ids(prior[BOARD_STAGE].entries), site.sprints, limits))
  }

  /** The results after at most `k` stages: an error result is the last one. */
  function StageResults(site: Site, projects: seq<string>, limits: Limits, k: nat): (stages: seq<StageResult>)
    requires k <= |ORDER|
    ensures |stages| <= k
    ensures forall i :: 0 <= i < |stages| - 1 ==> stages[i].ok
    ensures |stages| < k ==> |stages| > 0 && !stages[|stages| - 1].ok
  {
    if k == 0 then []
    else
      var before := StageResults(site, projects, limits, k - 1);
      if |before| < k - 1 || (k > 1 && !before[k - 2].ok) then before
      else before + [StageAt(site, projects, limits, k - 1, before)]
  }

  function AllEntries(stages: seq<StageResult>): seq<Entry> {
    if stages == [] then [] else AllEntries(stages[..|stages| - 1]) + stages[|stages| - 1].entries
  }

  function StageSections(stages: seq<StageResult>): seq<Section> {
    if stages == [] then [] else StageSections(stages[..|stages| - 1]) + [stages[|stages| - 1].section]
  }

  datatype RunResult = RunResult(
    stages: seq<StageResult>,
    allEntries: seq<Entry>,
    haltedAtStage: Option<CapturePhase>,
    systemFieldsSkipped: nat)

  /** Only the custom-field stage carries a count, and an error stage carries none. */
  function SumSystemFieldsSkipped(stages: seq<StageResult>): nat {
    if |stages| >= 2 then stages[1].systemFieldsSkipped else 0
  }

  predicate Proceeding(stages: seq<StageResult>) {
    |stages| > 0 ==> stages[|stages| - 1].ok
  }

  function AllStages(site: Site, projects: seq<string>, limits: Limits): (stages: seq<StageResult>)
    ensures |stages| > 0
  {
    StageResults(site, projects, limits, |ORDER|)
  }

  function RunResultOf(stages: seq<StageResult>): RunResult
    requires |stages| > 0
  {
    var last := stages[|stages| - 1];
    var haltedAtStage := if last.ok then None else Some(last.stageName);
    RunResult(stages, AllEntries(stages), haltedAtStage, SumSystemFieldsSkipped(stages))
  }

  // The orchestrator

  class ContextNodeCaptureOrchestrator {
    const site: Site

    constructor (site: Site)
      ensures this.site == site
    {
      this.site := site;
    }

    method CaptureIssueTypes(limits: Limits) returns (r: StageResult)
      requires limits.budget >= 1
      ensures r == ListStage(IssueTypePhase, Fetch(FlatServer(site.issueTypes), limits))
    {
      var outcome := P.PaginateAtlassian(FlatServer(site.issueTypes), limits.maxResults, limits.budget);
      r := FinishListStage(IssueTypePhase, outcome);
    }

    /** The three stages that paginate one endpoint differ in nothing but the endpoint and the stage name. */
    method CaptureList(phase: CapturePhase, server: Server, limits: Limits) returns (r: StageResult)
      requires Settles(server, limits)
      ensures r == ListStage(phase, Fetch(server, limits))
    {
      var outcome := P.PaginateAtlassian(server, limits.maxResults, limits.budget);
      r := FinishListStage(phase, outcome);
    }

    method FinishListStage(phase: CapturePhase, outcome: P.Outcome<ApiItem>) returns (r: StageResult)
      ensures r == ListStage(phase, outcome)
    {
      if !outcome.Finished? {
        return ErrorStage(phase);
      }
      var result := outcome.result;
      var entries := EntriesFor(phase, result.items);
      var section := Section(phase, result.pagesFetched, result.apiReportedTotal, |entries|, [], map[]);
      r := StageResult(phase, entries, section, true, 0);
    }

    method CaptureCustomFields(limits: Limits) returns (r: StageResult)
      requires limits.budget >= 1
      requires forall id :: Settles(site.contexts(id), limits)
      ensures r == FieldStage(Fetch(FlatServer(site.fields), limits), site.contexts, limits)
    {
      var fieldResult := P.PaginateAtlassian(FlatServer(site.fields), limits.maxResults, limits.budget);
      if !fieldResult.Finished? {
        return ErrorStage(CustomFieldPhase);
      }
      var result := fieldResult.result;
      var entries, skippedIds, skippedReasons, systemFieldsSkipped := CaptureFields(result.items, limits);
      var section := Section(CustomFieldPhase, result.pagesFetched, result.apiReportedTotal, |entries|, skippedIds,
                             skippedReasons);
      r := StageResult(CustomFieldPhase, entries, section, true, systemFieldsSkipped);
    }

    /** The loop over the fields: a custom one becomes an entry, a system one is skipped. */
    method CaptureFields(fields: seq<ApiItem>, limits: Limits)
      returns (entries: seq<Entry>, skippedIds: seq<string>, skippedReasons: map<string, string>,
               systemFieldsSkipped: nat)
      requires forall id :: Settles(site.contexts(id), limits)
      ensures entries == FieldEntries(fields, site.contexts, limits)
      ensures skippedIds == SystemFieldIds(fields) && skippedReasons == SystemFieldReasons(fields)
      ensures systemFieldsSkipped == |skippedIds|
    {
      entries, skippedIds, skippedReasons, systemFieldsSkipped := [], [], map[], 0;
      for i := 0 to |fields|
        invariant entries == FieldEntries(fields[..i], site.contexts, limits)
        invariant skippedIds == SystemFieldIds(fields[..i])
        invariant skippedReasons == SystemFieldReasons(fields[..i])
        invariant systemFieldsSkipped == |skippedIds|
      {
        var field := fields[i];
        assert fields[..i + 1][..i] == fields[..i];
        if !field.custom {
          skippedIds := skippedIds + [field.id];
          skippedReasons := skippedReasons[field.id := "system_field"];
          systemFieldsSkipped := systemFieldsSkipped + 1;
          continue;
        }
        var contextCount := CountContexts(field.id, limits);
        entries := entries + [FieldEntry(field, contextCount)];
      }
      assert fields[..|fields|] == fields;
    }

    /** A fetch that fails does not halt the stage. */
    method CountContexts(fieldId: string, limits: Limits) returns (contextCount: nat)
      requires Settles(site.contexts(fieldId), limits)
      ensures contextCount == ContextCount(Fetch(site.contexts(fieldId), limits))
    {
      contextCount := 0;
      var ctxResult := P.PaginateAtlassian(site.contexts(fieldId), limits.maxResults, limits.budget);
      if ctxResult.Finished? {
        contextCount := ctxResult.result.totalFetched;
      }
    }

    /** The body of the loop over parents. */
    method CaptureParent(phase: CapturePhase, server: Server, limits: Limits, sum: Totals)
      returns (next: Option<Totals>)
      ensures next == AddParent(phase, sum, Fetch(server, limits))
    {
      var outcome := P.PaginateAtlassian(server, limits.maxResults, limits.budget);
      if !outcome.Finished? {
        return None;
      }
      var result := outcome.result;
      var totalPagesFetched := sum.pages + result.pagesFetched;
      var totalApiReported := sum.reported + ReportedOrFetched(result);
      next := Some(Totals(sum.entries + EntriesFor(phase, result.items), totalPagesFetched, totalApiReported));
    }

    /** The common loop of the board and sprint stages; the first list that cannot be fetched ends it. */
    method SumParents(phase: CapturePhase, parents: seq<string>, serverOf: string -> Server, limits: Limits)
      returns (sum: Option<Totals>)
      ensures sum == SumOverParents(phase, parents, serverOf, limits)
    {
      var sofar := NOTHING;
      for i := 0 to |parents|
        invariant SumOverParents(phase, parents, serverOf, limits)
                  == SumOver(phase, parents[i..], serverOf, limits, sofar)
      {
        assert parents[i..][1..] == parents[i + 1..];
        var next := CaptureParent(phase, serverOf(parents[i]), limits, sofar);
        if next == None {
          return None;
        }
        sofar := next.value;
      }
      sum := Some(sofar);
    }

    method CaptureOverParents(phase: CapturePhase, parents: seq<string>, serverOf: string -> Server, limits: Limits)
      returns (r: StageResult)
      requires forall key :: Settles(serverOf(key), limits)
      ensures r == SummedStage(phase, SumOverParents(phase, parents, serverOf, limits))
    {
      var sum := SumParents(phase, parents, serverOf, limits);
      if sum == None {
        return ErrorStage(phase);
      }
      var t := sum.value;
      r := StageResult(phase, t.entries, Section(phase, t.pages, Some(t.reported), |t.entries|, [], map[]), true, 0);
    }

    method CaptureStage(projects: seq<string>, limits: Limits, k: nat, prior: seq<StageResult>) returns (r: StageResult)
      requires SiteSettles(site, limits) && k < |ORDER| && |prior| == k
      ensures r == StageAt(site, projects, limits, k, prior)
    {
      match k {
        case 0 => r := CaptureIssueTypes(limits);
        case 1 => r := CaptureCustomFields(limits);
        case 2 => r := CaptureList(FieldConfigurationPhase, site.fieldConfigurations, limits);
        case 3 => r := CaptureList(WorkflowPhase, site.workflows, limits);
        case 4 => r := CaptureList(WorkflowSchemePhase, site.workflowSchemes, limits);
        case 5 => r := CaptureOverParents(BoardPhase, projects, site.boards, limits);
        case _ => r := CaptureOverParents(SprintPhase, Ids(prior[BOARD_STAGE].entries), site.sprints, limits);
      }
    }

    /** The writer holds what it held before, then the sections and entries of `stages`, in order. */
    ghost predicate Recorded(writer: BackupPointManifestWriter, sections: seq<Section>, entries: seq<Entry>,
                             stages: seq<StageResult>)
      reads writer
    {
      && writer.sections == sections + StageSections(stages)
      && writer.allEntries == entries + AllEntries(stages)
    }

    /** The `onStageComplete` hook: the writer may object to the section, and its caller carries on. */
    method Record(writer: BackupPointManifestWriter, result: StageResult, now: Timestamp,
                  ghost sections: seq<Section>, ghost entries: seq<Entry>, ghost prior: seq<StageResult>)
      requires writer.Valid() && Recorded(writer, sections, entries, prior)
      modifies writer, writer.repo`points
      ensures writer.Valid() && Recorded(writer, sections, entries, prior + [result])
    {
      AppendStage(prior, result);
      ConcatAssociates(sections, StageSections(prior), [result.section]);
      ConcatAssociates(entries, AllEntries(prior), result.entries);
      var _ := writer.AppendStageSection(result.section, result.entries, now);
    }

    /** Runs the stages in order, hands each result to the manifest writer, and stops after an error result. */
    method Run(projects: seq<string>, limits: Limits, writer: BackupPointManifestWriter, now: Timestamp)
      returns (r: RunResult)
      requires SiteSettles(site, limits) && writer.Valid()
      modifies writer, writer.repo`points
      ensures r == RunResultOf(AllStages(site, projects, limits))
      ensures writer.Valid() && Recorded(writer, old(writer.sections), old(writer.allEntries), r.stages)
    {
      var stageResults: seq<StageResult> := [];
      var allEntries: seq<Entry> := [];
      while |stageResults| < |ORDER|
        invariant RanSoFar(site, projects, limits, stageResults, allEntries)
        invariant writer.Valid() && Recorded(writer, old(writer.sections), old(writer.allEntries), stageResults)
      {
        var result := CaptureStage(projects, limits, |stageResults|, stageResults);
        RunOn(site, projects, limits, stageResults, allEntries, result);
        Record(writer, result, now, old(writer.sections), old(writer.allEntries), stageResults);
        stageResults := stageResults + [result];
        allEntries := allEntries + result.entries;
        if !result.ok {
          return RunResult(stageResults, allEntries, Some(result.stageName), SumSystemFieldsSkipped(stageResults));
        }
      }
      r := RunResult(stageResults, allEntries, None, SumSystemFieldsSkipped(stageResults));
    }
  }

  /** The loop of a run after some stages, none of which was an error. */
  ghost predicate RanSoFar(site: Site, projects: seq<string>, limits: Limits, stages: seq<StageResult>,
                           entries: seq<Entry>)
  {
    && |stages| <= |ORDER| && Proceeding(stages)
    && stages == StageResults(site, projects, limits, |stages|)
    && entries == AllEntries(stages)
  }

  lemma RunOn(site: Site, projects: seq<string>, limits: Limits, stages: seq<StageResult>, entries: seq<Entry>,
              result: StageResult)
    requires RanSoFar(site, projects, limits, stages, entries) && |stages| < |ORDER|
    requires result == StageAt(site, projects, limits, |stages|, stages)
    ensures entries + result.entries == AllEntries(stages + [result])
    ensures if result.ok then RanSoFar(site, projects, limits, stages + [result], entries + result.entries)
            else stages + [result] == AllStages(site, projects, limits)
  {
    NextStage(site, projects, limits, stages);
    AppendStage(stages, result);
  }

  lemma ConcatAssociates<T>(a: seq<T>, b: seq<T>, c: seq<T>)
    ensures a + b + c == a + (b + c)
  {
  }

  lemma NextStage(site: Site, projects: seq<string>, limits: Limits, prior: seq<StageResult>)
    requires |prior| < |ORDER| && Proceeding(prior) && prior == StageResults(site, projects, limits, |prior|)
    ensures var result := StageAt(site, projects, limits, |prior|, prior);
            && prior + [result] == StageResults(site, projects, limits, |prior| + 1)
            && (!result.ok ==> prior + [result] == AllStages(site, projects, limits))
  {
    var result := StageAt(site, projects, limits, |prior|, prior);
    if !result.ok {
      StopsAfterError(site, projects, limits, |prior| + 1, |ORDER|);
    }
  }

  lemma AppendStage(stages: seq<StageResult>, r: StageResult)
    ensures StageSections(stages + [r]) == StageSections(stages) + [r.section]
    ensures AllEntries(stages + [r]) == AllEntries(stages) + r.entries
    ensures CountViolations(StageSections(stages + [r]))
            == CountViolations(StageSections(stages)) + if Violates(r.section) then 1 else 0
  {
    assert (stages + [r])[..|stages|] == stages;
    var sections := StageSections(stages) + [r.section];
    assert sections[..|sections| - 1] == StageSections(stages);
  }

  lemma {:induction false} StopsAfterError(site: Site, projects: seq<string>, limits: Limits, k: nat, n: nat)
    requires 1 <= k <= n <= |ORDER|
    requires var stages := StageResults(site, projects, limits, k); |stages| > 0 && !stages[|stages| - 1].ok
    ensures StageResults(site, projects, limits, n) == StageResults(site, projects, limits, k)
    decreases n
  {
    if k < n {
      StopsAfterError(site, projects, limits, k, n - 1);
    }
  }

  // Integrity across the layers

  lemma {:induction false} FieldsAreCapturedOrSkipped(fields: seq<ApiItem>, contexts: string -> Server, limits: Limits)
    ensures |FieldEntries(fields, contexts, limits)| + |SystemFieldIds(fields)| == |fields|
  {
    if fields != [] {
      FieldsAreCapturedOrSkipped(fields[..|fields| - 1], contexts, limits);
    }
  }

  /** A string is no list: its characters and its length are counted differently. */
  predicate Miscounted(reply: FlatReply) {
    reply.Text? && reply.codeUnits != |reply.codePoints|
  }

  lemma FlatFetch(reply: FlatReply, limits: Limits)
    requires limits.budget >= 1
    ensures var out := Fetch(FlatServer(reply), limits);
            match reply
            case Array(items) =>
              out.Finished? && out.result.items == items && out.result.apiReportedTotal == Some(|items|)
            case Text(codePoints, codeUnits) =>
              out.Finished? && out.result.items == codePoints && out.result.apiReportedTotal == Some(codeUnits)
            case Unusable => out.Failed?
  {
    if !reply.Unusable? {
      var page := FlatServer(reply)(0, 0, limits.maxResults).page;
      assert P.Absorb(P.Start(), page).items == if reply.Array? then reply.items else reply.codePoints;
    }
  }

  /**
   Whatever the flat endpoints answer and whatever happens to context fetches, their stages fail the integrity check
   exactly for a string whose code points are not as many as its code units; and every field is captured or skipped.
   */
  lemma FlatStagesViolateExactly(site: Site, limits: Limits)
    requires limits.budget >= 1
    ensures Violates(ListStage(IssueTypePhase, Fetch(FlatServer(site.issueTypes), limits)).section)
            <==> Miscounted(site.issueTypes)
    ensures Violates(FieldStage(Fetch(FlatServer(site.fields), limits), site.contexts, limits).section)
            <==> Miscounted(site.fields)
    ensures site.fields.Array? ==>
              var stage := FieldStage(Fetch(FlatServer(site.fields), limits), site.contexts, limits);
              stage.ok && |stage.entries| + |stage.section.skippedIds| == |site.fields.items|
  {
    FlatFetch(site.issueTypes, limits);
    FlatFetch(site.fields, limits);
    if !site.fields.Unusable? {
      FieldsAreCapturedOrSkipped(Fetch(FlatServer(site.fields), limits).result.items, site.contexts, limits);
    }
  }

  /** A stage over one list is flagged exactly when its pagination result is not reconciled. */
  lemma ListStageViolatesExactly(phase: CapturePhase, server: Server, limits: Limits)
    ensures var out := Fetch(server, limits);
            Violates(ListStage(phase, out).section) <==> out.Finished? && !out.result.reconciled
  {
    P.RunKeepsBooks(server, limits.maxResults, P.Start(), limits.budget);
  }

  /** How far the reported totals of the parents are from what was fetched, added up with their signs. */
  function TotalGap(parents: seq<string>, serverOf: string -> Server, limits: Limits): int {
    if parents == [] then 0
    else
      var outcome := Fetch(serverOf(parents[0]), limits);
      (if outcome.Finished? && outcome.result.gap.Some? then outcome.result.gap.value else 0)
      + TotalGap(parents[1..], serverOf, limits)
  }

  lemma {:induction false} ReportedMinusCapturedIsGap(phase: CapturePhase, parents: seq<string>,
                                                      serverOf: string -> Server, limits: Limits, sum: Totals)
    ensures var end := SumOver(phase, parents, serverOf, limits, sum);
            end.Some? ==> end.value.reported - |end.value.entries|
                          == sum.reported - |sum.entries| + TotalGap(parents, serverOf, limits)
    decreases |parents|
  {
    if parents != [] {
      var outcome := Fetch(serverOf(parents[0]), limits);
      var next := AddParent(phase, sum, outcome);
      P.RunKeepsBooks(serverOf(parents[0]), limits.maxResults, P.Start(), limits.budget);
      if next.Some? {
        ReportedMinusCapturedIsGap(phase, parents[1..], serverOf, limits, next.value);
      }
    }
  }

  /** A summed stage is flagged exactly when the gaps of its parents do not add up to zero. */
  lemma SummedStageViolatesExactly(phase: CapturePhase, parents: seq<string>, serverOf: string -> Server,
                                   limits: Limits)
    ensures var sum := SumOverParents(phase, parents, serverOf, limits);
            Violates(SummedStage(phase, sum).section) <==> sum.Some? && TotalGap(parents, serverOf, limits) != 0
  {
    ReportedMinusCapturedIsGap(phase, parents, serverOf, limits, NOTHING);
  }

  /** A server that shows `list` on one page and reports `total`. */
  function OnePage(list: seq<ApiItem>, total: int): Server {
    (call, startAt, maxResults) => P.Delivered(P.Page(Some(list), None, Some(total), Some(true)))
  }

  /** So opposite gaps go unnoticed: two projects, one board short and one board over, pass the check. */
  lemma OppositeGapsCancel()
    ensures var board := ApiItem("1", "board", false);
            var boards: string -> Server := key => if key == "A" then OnePage([board], 2) else OnePage([board], 0);
            var limits := Limits(50, 1);
            && !Fetch(boards("A"), limits).result.reconciled
            && !Fetch(boards("B"), limits).result.reconciled
            && !Violates(SummedStage(BoardPhase, SumOverParents(BoardPhase, ["A", "B"], boards, limits)).section)
  {
    var board := ApiItem("1", "board", false);
    var boards: string -> Server := key => if key == "A" then OnePage([board], 2) else OnePage([board], 0);
    var limits := Limits(50, 1);
    assert P.Absorb(P.Start(), boards("A")(0, 0, 50).page).items == [board];
    assert P.Absorb(P.Start(), boards("B")(0, 0, 50).page).items == [board];
    var parents := ["A", "B"];
    assert parents[1..] == ["B"] && parents[1..][1..] == [];
    assert TotalGap(["B"], boards, limits) == -1 && TotalGap(parents, boards, limits) == 0;
    SummedStageViolatesExactly(BoardPhase, parents, boards, limits);
  }

  /** The lists behind the paginated endpoints. */
  datatype Truth = Truth(
    fieldConfigurations: seq<ApiItem>,
    workflows: seq<ApiItem>,
    workflowSchemes: seq<ApiItem>,
    boards: string -> seq<ApiItem>,
    sprints: string -> seq<ApiItem>)

  /** Every page that arrives is honest, and a flat endpoint does not answer with a string. Fetches may fail. */
  ghost predicate TruthfulSite(site: Site, truth: Truth) {
    && !site.issueTypes.Text? && !site.fields.Text?
    && P.Truthful(site.fieldConfigurations, truth.fieldConfigurations)
    && P.Truthful(site.workflows, truth.workflows)
    && P.Truthful(site.workflowSchemes, truth.workflowSchemes)
    && (forall key :: P.Truthful(site.boards(key), truth.boards(key)))
    && (forall id :: P.Truthful(site.sprints(id), truth.sprints(id)))
  }

  ghost predicate RoomFor(truth: Truth, limits: Limits) {
    && limits.maxResults >= 1
    && limits.budget > |truth.fieldConfigurations|
    && limits.budget > |truth.workflows|
    && limits.budget > |truth.workflowSchemes|
    && (forall key :: limits.budget > |truth.boards(key)|)
    && (forall id :: limits.budget > |truth.sprints(id)|)
  }

  lemma TruthfulFetch(server: Server, list: seq<ApiItem>, limits: Limits)
    requires P.Truthful(server, list) && limits.maxResults >= 1 && limits.budget > |list|
    ensures Settles(server, limits)
    ensures var out := Fetch(server, limits);
            out.Finished? ==> out.result.items == list && out.result.reconciled && out.result.gap == None
    ensures P.NeverRejects(server) ==> Fetch(server, limits).Finished?
  {
    var signalled := P.Signalled(server, list, limits.maxResults, 0, 0);
    P.PageCountIsSmall(|list|, limits.maxResults, signalled);
    P.TruthfulServer(server, list, limits.maxResults, limits.budget, P.PageCount(|list|, limits.maxResults, signalled));
    P.RunKeepsBooks(server, limits.maxResults, P.Start(), limits.budget);
  }

  lemma {:induction false} TruthfulParentsHaveNoGap(parents: seq<string>, serverOf: string -> Server,
                                                    listOf: string -> seq<ApiItem>, limits: Limits)
    requires limits.maxResults >= 1
    requires forall key :: P.Truthful(serverOf(key), listOf(key)) && limits.budget > |listOf(key)|
    ensures TotalGap(parents, serverOf, limits) == 0
  {
    if parents != [] {
      TruthfulParentsHaveNoGap(parents[1..], serverOf, listOf, limits);
      TruthfulFetch(serverOf(parents[0]), listOf(parents[0]), limits);
    }
  }

  lemma {:induction false} NextStageDoesNotViolate(site: Site, truth: Truth, projects: seq<string>, limits: Limits,
                                                   before: seq<StageResult>, stage: StageResult)
    requires TruthfulSite(site, truth) && RoomFor(truth, limits) && |before| < |ORDER|
    requires stage == StageAt(site, projects, limits, |before|, before)
    requires CountViolations(StageSections(before)) == 0
    ensures CountViolations(StageSections(before + [stage])) == 0
  {
    StageDoesNotViolate(site, truth, projects, limits, |before|, before);
    AppendStage(before, stage);
  }

  lemma {:induction false} MoreStagesDoNotViolate(site: Site, truth: Truth, projects: seq<string>, limits: Limits,
                                                  k: nat, before: seq<StageResult>, after: seq<StageResult>)
    requires TruthfulSite(site, truth) && RoomFor(truth, limits) && 1 <= k <= |ORDER|
    requires before == StageResults(site, projects, limits, k - 1) && after == StageResults(site, projects, limits, k)
    requires CountViolations(StageSections(before)) == 0
    ensures CountViolations(StageSections(after)) == 0
  {
    if !(|before| < k - 1 || (k > 1 && !before[k - 2].ok)) {
      NextStageDoesNotViolate(site, truth, projects, limits, before, StageAt(site, projects, limits, k - 1, before));
    }
  }

  /** No stage of a run against truthful endpoints is flagged, whichever fetches fail and wherever the run halts. */
  lemma {:induction false} TruthfulSiteNeverViolates(site: Site, truth: Truth, projects: seq<string>, limits: Limits,
                                                     k: nat)
    requires TruthfulSite(site, truth) && RoomFor(truth, limits) && k <= |ORDER|
    ensures CountViolations(StageSections(StageResults(site, projects, limits, k))) == 0
  {
    if k > 0 {
      TruthfulSiteNeverViolates(site, truth, projects, limits, k - 1);
      MoreStagesDoNotViolate(site, truth, projects, limits, k, StageResults(site, projects, limits, k - 1),
                             StageResults(site, projects, limits, k));
    }
  }

  lemma StageDoesNotViolate(site: Site, truth: Truth, projects: seq<string>, limits: Limits, k: nat,
                            prior: seq<StageResult>)
    requires TruthfulSite(site, truth) && RoomFor(truth, limits) && k < |ORDER| && |prior| == k
    ensures !Violates(StageAt(site, projects, limits, k, prior).section)
  {
    match k
    case 0 => FlatStagesViolateExactly(site, limits);
    case 1 => FlatStagesViolateExactly(site, limits);
    case 2 =>
      TruthfulFetch(site.fieldConfigurations, truth.fieldConfigurations, limits);
      ListStageViolatesExactly(FieldConfigurationPhase, site.fieldConfigurations, limits);
    case 3 =>
      TruthfulFetch(site.workflows, truth.workflows, limits);
      ListStageViolatesExactly(WorkflowPhase, site.workflows, limits);
    case 4 =>
      TruthfulFetch(site.workflowSchemes, truth.workflowSchemes, limits);
      ListStageViolatesExactly(WorkflowSchemePhase, site.workflowSchemes, limits);
    case 5 =>
      TruthfulParentsHaveNoGap(projects, site.boards, truth.boards, limits);
      SummedStageViolatesExactly(BoardPhase, projects, site.boards, limits);
    case _ =>
      var boards := Ids(prior[BOARD_STAGE].entries);
      TruthfulParentsHaveNoGap(boards, site.sprints, truth.sprints, limits);
      SummedStageViolatesExactly(SprintPhase, boards, site.sprints, limits);
  }

  /** What a complete capture over parents contains. */
  function EntriesOverParents(phase: CapturePhase, parents: seq<string>, listOf: string -> seq<ApiItem>): seq<Entry> {
    if parents == [] then []
    else EntriesFor(phase, listOf(parents[0])) + EntriesOverParents(phase, parents[1..], listOf)
  }

  /** Every parent's list, if fetched at all, is fetched whole. */
  ghost predicate FetchedWhole(serverOf: string -> Server, listOf: string -> seq<ApiItem>, limits: Limits) {
    forall key :: Fetch(serverOf(key), limits).Finished? ==> Fetch(serverOf(key), limits).result.items == listOf(key)
  }

  lemma TruthfulListsAreFetchedWhole(serverOf: string -> Server, listOf: string -> seq<ApiItem>, limits: Limits)
    requires limits.maxResults >= 1
    requires forall key :: P.Truthful(serverOf(key), listOf(key)) && limits.budget > |listOf(key)|
    ensures FetchedWhole(serverOf, listOf, limits)
  {
    forall key
      ensures Fetch(serverOf(key), limits).Finished? ==> Fetch(serverOf(key), limits).result.items == listOf(key)
    {
      TruthfulFetch(serverOf(key), listOf(key), limits);
    }
  }

  lemma {:induction false} ParentsAreReadCompletely(phase: CapturePhase, parents: seq<string>,
                                                    serverOf: string -> Server,
                                                    listOf: string -> seq<ApiItem>, limits: Limits, sum: Totals)
    requires FetchedWhole(serverOf, listOf, limits)
    ensures var end := SumOver(phase, parents, serverOf, limits, sum);
            end.Some? ==> end.value.entries == sum.entries + EntriesOverParents(phase, parents, listOf)
    decreases |parents|
  {
    if parents == [] {
      assert sum.entries + [] == sum.entries;
    } else {
      var first := EntriesFor(phase, listOf(parents[0]));
      var next := AddParent(phase, sum, Fetch(serverOf(parents[0]), limits));
      if next.Some? {
        assert next.value.entries == sum.entries + first;
        ParentsAreReadCompletely(phase, parents[1..], serverOf, listOf, limits, next.value);
        ConcatAssociates(sum.entries, first, EntriesOverParents(phase, parents[1..], listOf));
      }
    }
  }

  // What the entries show

  /** The entry of an object: its own id, and its name, or for workflows the id again, as key. */
  predicate ShowsItem(entry: Entry, phase: CapturePhase, item: ApiItem) {
    && entry.id == item.id && entry.key == (if phase.WorkflowPhase? then item.id else item.name)
    && entry.phase == phase && entry.status == Success && entry.data == Payload(item, None)
    && entry.objectType == match phase
                           case IssueTypePhase => IssueType
                           case CustomFieldPhase => CustomField
                           case FieldConfigurationPhase => FieldConfiguration
                           case WorkflowPhase => Workflow
                           case WorkflowSchemePhase => WorkflowScheme
                           case ProjectPhase => JiraProject
                           case BoardPhase => JiraBoard
                           case SprintPhase => JiraSprint
                           case IssuePhase => JiraIssue
  }

  ghost predicate Show(entries: seq<Entry>, phase: CapturePhase, items: seq<ApiItem>) {
    |entries| == |items| && forall i :: 0 <= i < |items| ==> ShowsItem(entries[i], phase, items[i])
  }

  lemma EntriesForShow(phase: CapturePhase, items: seq<ApiItem>)
    ensures Show(EntriesFor(phase, items), phase, items)
  {
  }

  /** The lists of all parents, one after another. */
  function ListsOf(parents: seq<string>, listOf: string -> seq<ApiItem>): seq<ApiItem> {
    if parents == [] then [] else listOf(parents[0]) + ListsOf(parents[1..], listOf)
  }

  lemma {:induction false} EntriesOverParentsShow(phase: CapturePhase, parents: seq<string>,
                                                  listOf: string -> seq<ApiItem>)
    ensures Show(EntriesOverParents(phase, parents, listOf), phase, ListsOf(parents, listOf))
  {
    if parents != [] {
      EntriesForShow(phase, listOf(parents[0]));
      EntriesOverParentsShow(phase, parents[1..], listOf);
    }
  }

  /** The fields that are custom, or those that are not, in order. */
  function FieldsThat(fields: seq<ApiItem>, custom: bool): seq<ApiItem> {
    if fields == [] then []
    else
      var last := fields[|fields| - 1];
      FieldsThat(fields[..|fields| - 1], custom) + if last.custom == custom then [last] else []
  }

  /** The entry of a custom field says how many contexts were fetched for it; none if the fetch failed. */
  predicate ShowsField(entry: Entry, field: ApiItem, contexts: P.Outcome<ApiItem>) {
    && entry.id == field.id && entry.key == field.name
    && entry.phase == CustomFieldPhase && entry.objectType == CustomField && entry.status == Success
    && entry.data == Payload(field, Some(if contexts.Finished? then contexts.result.totalFetched else 0))
  }

  ghost predicate ShowFields(entries: seq<Entry>, fields: seq<ApiItem>, contexts: string -> Server, limits: Limits) {
    && |entries| == |FieldsThat(fields, true)|
    && forall i :: 0 <= i < |entries| ==>
         var field := FieldsThat(fields, true)[i]; ShowsField(entries[i], field, Fetch(contexts(field.id), limits))
  }

  lemma {:induction false} FieldEntriesShow(fields: seq<ApiItem>, contexts: string -> Server, limits: Limits)
    ensures ShowFields(FieldEntries(fields, contexts, limits), fields, contexts, limits)
  {
    if fields != [] {
      FieldEntriesShow(fields[..|fields| - 1], contexts, limits);
    }
  }

  /** The system fields are skipped, in order, and each of them for the same reason. */
  lemma {:induction false} SystemFieldsAreSkipped(fields: seq<ApiItem>)
    ensures var system, ids := FieldsThat(fields, false), SystemFieldIds(fields);
            && |ids| == |system| && (forall i :: 0 <= i < |ids| ==> ids[i] == system[i].id)
            && (forall id :: id in SystemFieldReasons(fields) <==> id in ids)
            && (forall id :: id in ids ==> SystemFieldReasons(fields)[id] == "system_field")
  {
    if fields != [] {
      SystemFieldsAreSkipped(fields[..|fields| - 1]);
    }
  }

  /** A flat list is fetched in one page, and reports the length of the answer; anything else fails its stage. */
  lemma FlatListIsFetched(reply: FlatReply, limits: Limits)
    requires limits.budget >= 1
    ensures var outcome := Fetch(FlatServer(reply), limits);
            && (reply.Unusable? ==> outcome == P.Failed)
            && (!reply.Unusable? ==>
                  && outcome.Finished? && outcome.result.pagesFetched == 1
                  && outcome.result.items == (if reply.Array? then reply.items else reply.codePoints)
                  && outcome.result.apiReportedTotal
                     == Some(if reply.Array? then |reply.items| else reply.codeUnits))
  {
    var start := P.Start<ApiItem>();
    assert start.items == [];
    if !reply.Unusable? {
      var items := if reply.Array? then reply.items else reply.codePoints;
      assert start.items + items == items;
    }
  }

  /** What the section of a stage reports of the list that was fetched, and of none if it could not be. */
  lemma SectionReports(phase: CapturePhase, outcome: P.Outcome<ApiItem>)
    ensures var stage := ListStage(phase, outcome);
            && (stage.ok <==> outcome.Finished?) && stage.stageName == phase == stage.section.stageName
            && (outcome.Finished? ==>
                  && stage.section.apiPageCount == outcome.result.pagesFetched
                  && stage.section.apiTotalReported == outcome.result.apiReportedTotal
                  && stage.section.capturedCount == |outcome.result.items| && stage.section.skippedIds == [])
            && (!outcome.Finished? ==>
                  && stage.entries == [] && stage.section.apiPageCount == 0 && stage.section.apiTotalReported == None
                  && stage.section.capturedCount == 0 && stage.section.skippedIds == [])
  {
  }

  /** And that of the custom fields, which besides counts the fields skipped. */
  lemma FieldSectionReports(outcome: P.Outcome<ApiItem>, contexts: string -> Server, limits: Limits)
    requires outcome.Finished?
    ensures var stage, fields := FieldStage(outcome, contexts, limits), outcome.result.items;
            && stage.ok && stage.section.stageName == CustomFieldPhase
            && stage.section.apiPageCount == outcome.result.pagesFetched
            && stage.section.apiTotalReported == outcome.result.apiReportedTotal
            && stage.section.capturedCount == |FieldsThat(fields, true)|
            && |stage.section.skippedIds| == |FieldsThat(fields, false)| == stage.systemFieldsSkipped
            && stage.section.skippedReasons.Keys == (set id | id in stage.section.skippedIds)
  {
    FieldEntriesShow(outcome.result.items, contexts, limits);
    SystemFieldsAreSkipped(outcome.result.items);
  }

  /** The pages fetched for all parents, and the totals they reported, or what was fetched where none was. */
  function PagesOver(parents: seq<string>, serverOf: string -> Server, limits: Limits): nat {
    if parents == [] then 0
    else
      var out := Fetch(serverOf(parents[0]), limits);
      (if out.Finished? then out.result.pagesFetched else 0) + PagesOver(parents[1..], serverOf, limits)
  }

  function TotalsOver(parents: seq<string>, serverOf: string -> Server, limits: Limits): int {
    if parents == [] then 0
    else
      var out := Fetch(serverOf(parents[0]), limits);
      (if !out.Finished? then 0
       else if out.result.apiReportedTotal.Some? then out.result.apiReportedTotal.value
       else out.result.totalFetched)
      + TotalsOver(parents[1..], serverOf, limits)
  }

  predicate AllFetched(parents: seq<string>, serverOf: string -> Server, limits: Limits) {
    forall i :: 0 <= i < |parents| ==> Fetch(serverOf(parents[i]), limits).Finished?
  }

  lemma {:induction false} SumsOver(phase: CapturePhase, parents: seq<string>, serverOf: string -> Server,
                                    limits: Limits, sum: Totals)
    ensures var end := SumOver(phase, parents, serverOf, limits, sum);
            && (end.Some? <==> AllFetched(parents, serverOf, limits))
            && (end.Some? ==>
                  && end.value.pages == sum.pages + PagesOver(parents, serverOf, limits)
                  && end.value.reported == sum.reported + TotalsOver(parents, serverOf, limits))
    decreases |parents|
  {
    if parents != [] {
      var next := AddParent(phase, sum, Fetch(serverOf(parents[0]), limits));
      if next.Some? {
        SumsOver(phase, parents[1..], serverOf, limits, next.value);
        assert forall i :: 1 <= i < |parents| ==> parents[i] == parents[1..][i - 1];
      }
    }
  }

  /** A summed stage succeeds exactly if every parent's list was fetched, and reports the pages and totals of all. */
  lemma SummedSectionReports(phase: CapturePhase, parents: seq<string>, serverOf: string -> Server, limits: Limits)
    ensures var stage := SummedStage(phase, SumOverParents(phase, parents, serverOf, limits));
            && (stage.ok <==> AllFetched(parents, serverOf, limits))
            && stage.stageName == phase == stage.section.stageName && stage.section.skippedIds == []
            && stage.section.capturedCount == |stage.entries|
            && (stage.ok ==>
                  && stage.section.apiPageCount == PagesOver(parents, serverOf, limits)
                  && stage.section.apiTotalReported == Some(TotalsOver(parents, serverOf, limits)))
            && (!stage.ok ==>
                  stage.entries == [] && stage.section.apiPageCount == 0 && stage.section.apiTotalReported == None)
  {
    SumsOver(phase, parents, serverOf, limits, NOTHING);
  }

  /** A run reports the stages it has, the one it halted at if that failed, and the system fields that were skipped. */
  lemma RunReports(stages: seq<StageResult>)
    requires |stages| > 0
    ensures var r, last := RunResultOf(stages), stages[|stages| - 1];
            && r.stages == stages && r.allEntries == AllEntries(stages)
            && (last.ok ==> r.haltedAtStage == None) && (!last.ok ==> r.haltedAtStage == Some(last.stageName))
            && r.systemFieldsSkipped == (if |stages| > 1 then stages[1].systemFieldsSkipped else 0)
  {
  }

  /** The number of entries of the first `n` stages. */
  function EntriesOf(stages: seq<StageResult>, n: nat): nat
    requires n <= |stages|
  {
    if n == 0 then 0 else EntriesOf(stages, n - 1) + |stages[n - 1].entries|
  }

  lemma {:induction false} EntriesOfPrefix(stages: seq<StageResult>, k: nat, n: nat)
    requires n <= k <= |stages|
    ensures EntriesOf(stages[..k], n) == EntriesOf(stages, n)
  {
    if n > 0 {
      EntriesOfPrefix(stages, k, n - 1);
    }
  }

  /** Entries and sections are those of the stages, one stage after the other. */
  lemma {:induction false} StagesAreConcatenated(stages: seq<StageResult>, i: nat)
    requires i < |stages|
    ensures |StageSections(stages)| == |stages| && StageSections(stages)[i] == stages[i].section
    ensures |AllEntries(stages)| == EntriesOf(stages, |stages|)
    ensures var from, to := EntriesOf(stages, i), EntriesOf(stages, i + 1);
            from <= to <= |AllEntries(stages)| && AllEntries(stages)[from..to] == stages[i].entries
  {
    var n := |stages| - 1;
    EntriesOfPrefix(stages, n, n);
    if n > 0 {
      StagesAreConcatenated(stages[..n], if i < n then i else 0);
      EntriesOfPrefix(stages, n, i);
      if i < n {
        EntriesOfPrefix(stages, n, i + 1);
      }
    }
  }

  /** The entries that stage `k` must hold when it succeeds; stages 0 and 1 depend on no pagination. */
  ghost predicate HoldsItsList(site: Site, truth: Truth, projects: seq<string>, limits: Limits, k: nat,
                               prior: seq<StageResult>, entries: seq<Entry>)
    requires k < |ORDER| && |prior| == k
  {
    match k
    case 0 => site.issueTypes.Array? && Show(entries, IssueTypePhase, site.issueTypes.items)
    case 1 => site.fields.Array? && ShowFields(entries, site.fields.items, site.contexts, limits)
    case 2 => Show(entries, FieldConfigurationPhase, truth.fieldConfigurations)
    case 3 => Show(entries, WorkflowPhase, truth.workflows)
    case 4 => Show(entries, WorkflowSchemePhase, truth.workflowSchemes)
    case 5 => Show(entries, BoardPhase, ListsOf(projects, truth.boards))
    case _ =>
      var boards := prior[5].entries;
      Show(entries, SprintPhase,
           ListsOf(seq(|boards|, i requires 0 <= i < |boards| => boards[i].id), truth.sprints))
  }

  /** A stage that succeeds against truthful endpoints has captured exactly the list behind them, in order. */
  lemma SuccessfulStageIsComplete(site: Site, truth: Truth, projects: seq<string>, limits: Limits, k: nat,
                                  prior: seq<StageResult>)
    requires TruthfulSite(site, truth) && RoomFor(truth, limits) && k < |ORDER| && |prior| == k
    ensures var stage := StageAt(site, projects, limits, k, prior);
            stage.ok ==> HoldsItsList(site, truth, projects, limits, k, prior, stage.entries)
  {
    match k
    case 0 =>
      FlatFetch(site.issueTypes, limits);
      if site.issueTypes.Array? {
        EntriesForShow(IssueTypePhase, site.issueTypes.items);
      }
    case 1 =>
      FlatFetch(site.fields, limits);
      if site.fields.Array? {
        FieldEntriesShow(site.fields.items, site.contexts, limits);
      }
    case 2 =>
      TruthfulFetch(site.fieldConfigurations, truth.fieldConfigurations, limits);
      EntriesForShow(FieldConfigurationPhase, truth.fieldConfigurations);
    case 3 =>
      TruthfulFetch(site.workflows, truth.workflows, limits);
      EntriesForShow(WorkflowPhase, truth.workflows);
    case 4 =>
      TruthfulFetch(site.workflowSchemes, truth.workflowSchemes, limits);
      EntriesForShow(WorkflowSchemePhase, truth.workflowSchemes);
    case 5 =>
      TruthfulListsAreFetchedWhole(site.boards, truth.boards, limits);
      ParentsAreReadCompletely(BoardPhase, projects, site.boards, truth.boards, limits, NOTHING);
      EntriesOverParentsShow(BoardPhase, projects, truth.boards);
    case _ =>
      var boards := Ids(prior[BOARD_STAGE].entries);
      TruthfulListsAreFetchedWhole(site.sprints, truth.sprints, limits);
      ParentsAreReadCompletely(SprintPhase, boards, site.sprints, truth.sprints, limits, NOTHING);
      EntriesOverParentsShow(SprintPhase, boards, truth.sprints);
  }

  lemma {:induction false} StagesFollowTheOrder(site: Site, projects: seq<string>, limits: Limits, k: nat, i: nat)
    requires k <= |ORDER| && i < |StageResults(site, projects, limits, k)|
    ensures var stages := StageResults(site, projects, limits, k);
            stages[i] == StageAt(site, projects, limits, i, stages[..i]) && stages[i].stageName == ORDER[i]
  {
    var stages := StageResults(site, projects, limits, k);
    var before := StageResults(site, projects, limits, k - 1);
    if i < |before| {
      StagesFollowTheOrder(site, projects, limits, k - 1, i);
      assert stages[..i] == before[..i];
    } else {
      assert stages[..i] == before;
    }
  }

  /** So a run is a prefix of the fixed order in which every stage but a halting last one holds its whole list. */
  lemma RunCapturesWholeLists(site: Site, truth: Truth, projects: seq<string>, limits: Limits, i: nat)
    requires TruthfulSite(site, truth) && RoomFor(truth, limits)
    requires i < |AllStages(site, projects, limits)|
    ensures var stages := AllStages(site, projects, limits);
            && stages[i].stageName == ORDER[i]
            && (stages[i].ok ==> HoldsItsList(site, truth, projects, limits, i, stages[..i], stages[i].entries))
            && (!stages[i].ok ==> i == |stages| - 1 && stages[i].entries == [])
  {
    var stages := AllStages(site, projects, limits);
    StagesFollowTheOrder(site, projects, limits, |ORDER|, i);
    SuccessfulStageIsComplete(site, truth, projects, limits, i, stages[..i]);
  }

  lemma TruthfulSiteSettles(site: Site, truth: Truth, limits: Limits)
    requires TruthfulSite(site, truth) && RoomFor(truth, limits)
    requires forall id :: Settles(site.contexts(id), limits)
    ensures SiteSettles(site, limits)
  {
    TruthfulFetch(site.fieldConfigurations, truth.fieldConfigurations, limits);
    TruthfulFetch(site.workflows, truth.workflows, limits);
    TruthfulFetch(site.workflowSchemes, truth.workflowSchemes, limits);
    forall key ensures Settles(site.boards(key), limits) {
      TruthfulFetch(site.boards(key), truth.boards(key), limits);
    }
    forall id ensures Settles(site.sprints(id), limits) {
      TruthfulFetch(site.sprints(id), truth.sprints(id), limits);
    }
  }

  method FinalizeAndValidate(writer: BackupPointManifestWriter, now: Timestamp)
    returns (m: Manifest, v: ValidationResult)
    requires writer.Valid()
    modifies writer.repo`points
    ensures writer.Valid() && writer.Stored() == m
    ensures m.stages == writer.sections && m.entries == writer.allEntries
    ensures m.status == if CountViolations(m.stages) == 0 then Completed else CompletedWithErrors
    ensures IntegrityErrors(v.errors) == [] <==> CountViolations(m.stages) == 0
  {
    var r := writer.Finalize(Completed, [], now);
    m := r.manifest;
    v := Validate(m);
    NoViolationErrors(m.stages);
  }

  method RunOnNewWriter(orchestrator: ContextNodeCaptureOrchestrator, projects: seq<string>, limits: Limits,
                        writer: BackupPointManifestWriter, now: Timestamp) returns (run: RunResult)
    requires SiteSettles(orchestrator.site, limits)
    requires writer.Valid() && writer.sections == [] && writer.allEntries == []
    modifies writer, writer.repo`points
    ensures run == RunResultOf(AllStages(orchestrator.site, projects, limits))
    ensures writer.Valid() && writer.sections == StageSections(run.stages) && writer.allEntries == run.allEntries
  {
    ghost var sections, entries := writer.sections, writer.allEntries;
    run := orchestrator.Run(projects, limits, writer, now);
    NothingBefore(sections, StageSections(run.stages));
    NothingBefore(entries, AllEntries(run.stages));
  }

  lemma NothingBefore<T>(a: seq<T>, b: seq<T>)
    requires |a| == 0
    ensures a + b == b
  {
  }

  /** A whole context backup on any site: run, finalize as completed, validate what was stored. */
  method BackupContext(orchestrator: ContextNodeCaptureOrchestrator, projects: seq<string>, limits: Limits,
                       writer: BackupPointManifestWriter, now: Timestamp)
    returns (run: RunResult, m: Manifest, v: ValidationResult)
    requires SiteSettles(orchestrator.site, limits)
    requires writer.Valid() && writer.sections == [] && writer.allEntries == []
    modifies writer, writer.repo`points
    ensures run == RunResultOf(AllStages(orchestrator.site, projects, limits))
    ensures writer.Valid() && writer.Stored() == m
    ensures m.stages == StageSections(run.stages) && m.entries == run.allEntries
    ensures m.status == if CountViolations(m.stages) == 0 then Completed else CompletedWithErrors
    ensures IntegrityErrors(v.errors) == [] <==> CountViolations(m.stages) == 0
  {
    run := RunOnNewWriter(orchestrator, projects, limits, writer, now);
    m, v := FinalizeAndValidate(writer, now);
  }

  /**
   From the endpoints to the validator: against truthful endpoints the whole backup is stored as completed and the
   validator finds no integrity violation in it, whichever fetches fail.
   */
  method TruthfulBackupPassesValidation(orchestrator: ContextNodeCaptureOrchestrator, ghost truth: Truth,
                                        projects: seq<string>, limits: Limits,
                                        writer: BackupPointManifestWriter, now: Timestamp)
    returns (run: RunResult, m: Manifest, v: ValidationResult)
    requires TruthfulSite(orchestrator.site, truth) && RoomFor(truth, limits)
    requires forall id :: Settles(orchestrator.site.contexts(id), limits)
    requires writer.Valid() && writer.sections == [] && writer.allEntries == []
    modifies writer, writer.repo`points
    ensures writer.Valid() && writer.Stored() == m
    ensures m.status == Completed && m.stages == StageSections(run.stages) && m.entries == run.allEntries
    ensures IntegrityErrors(v.errors) == []
  {
    TruthfulSiteSettles(orchestrator.site, truth, limits);
    TruthfulSiteNeverViolates(orchestrator.site, truth, projects, limits, |ORDER|);
    run, m, v := BackupContext(orchestrator, projects, limits, writer, now);
  }
}
