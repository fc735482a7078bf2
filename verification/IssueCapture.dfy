/**
 Issue capture (src/capture/IssueCaptureOrchestrator.ts) and the four places in which it counts: its own
 totals, the manifest entries, the job_errors rows and the heartbeat emitter. What the network and the
 disk do is part of the input: each fetch, write and download of each issue succeeds or fails.
 */
module IssueCapture {
  import opened Common
  import opened ManifestTypes
  import opened BackupPoints
  import opened ManifestWriter
  import opened Jobs

  datatype Attempt = Succeeds | Fails(message: string)

  /** An element of an issue's attachment array. Only the array itself is checked before use, so it may hold null. */
  datatype Attachment = NullReference | Attachment(id: string, download: Attempt)

  /**
   What the tables make of the key an issue came with: a text is stored; without a key the manifest entry is ignored
   and the error row refused; a key of another kind, say a boolean, is refused by either table.
   */
  datatype Binding = AsText | AsNull | Unbindable

  /** An issue, with its key as it prints. */
  datatype Issue = Issue(
    key: string,
    binding: Binding,
    readFields: Attempt,
    fetchSupplements: Attempt,
    writePayload: Attempt,
    attachments: seq<Attachment>)

  /** An element of a listing, which is not checked before use either. */
  datatype Element = NullElement | Element(issue: Issue)

  /** A project whose issues were listed, or whose listing was rejected. */
  datatype Project = Listed(elements: seq<Element>) | ListingRejected

  /** What an orchestrator works for. */
  datatype Ids = Ids(backupPointId: string, jobId: string)

  // Effects: what each piece of work adds in every place

  datatype Tally = Tally(
    captured: nat,
    errors: nat,
    items: seq<ItemEntry>,
    jobErrors: seq<JobError>,
    processed: nat,
    failed: nat)

  const NOTHING: Tally := Tally(0, 0, [], [], 0, 0)

  function Plus(a: Tally, b: Tally): Tally {
    Tally(a.captured + b.captured, a.errors + b.errors, a.items + b.items, a.jobErrors + b.jobErrors,
          a.processed + b.processed, a.failed + b.failed)
  }

  lemma PlusAssociates(a: Tally, b: Tally, c: Tally)
    ensures Plus(Plus(a, b), c) == Plus(a, Plus(b, c))
    ensures Plus(a, NOTHING) == a && Plus(NOTHING, a) == a
  {
    assert a.items + b.items + c.items == a.items + (b.items + c.items);
    assert a.jobErrors + b.jobErrors + c.jobErrors == a.jobErrors + (b.jobErrors + c.jobErrors);
    assert a.items + [] == a.items && a.jobErrors + [] == a.jobErrors;
  }

  function IssueEntry(ids: Ids, key: string, outcome: Attempt): ItemEntry {
    ItemEntry(ids.backupPointId, JiraIssue, IssueId(key), IssueSearch, outcome.Succeeds?,
              if outcome.Succeeds? then None else Some(outcome.message))
  }

  /** Attachments are recorded under the object type of their issue. */
  function AttachmentEntry(ids: Ids, key: string, id: string, outcome: Attempt): ItemEntry {
    ItemEntry(ids.backupPointId, JiraIssue, AttachmentId(key, id), AttachmentContent(id), outcome.Succeeds?,
              if outcome.Succeeds? then None else Some(outcome.message))
  }

  /** An error that only the totals of the run know of: the catch block threw right after counting it. */
  const LOST_ERROR: Tally := Tally(0, 1, [], [], 0, 0)

  /** The catch block around an issue, when it does not throw. */
  function IssueFailure(ids: Ids, issue: Issue, message: string): Tally {
    if issue.binding.AsText? then
      Tally(0, 1, [IssueEntry(ids, issue.key, Fails(message))],
            [JobError(ids.jobId, ids.backupPointId, IssueId(issue.key), ApiError)], 0, 1)
    else Tally(0, 1, [], [], 0, 1)
  }

  const CAPTURED: Tally := Tally(1, 0, [], [], 1, 0)

  function IssueRecorded(ids: Ids, issue: Issue): Tally {
    Tally(0, 0, if issue.binding.AsText? then [IssueEntry(ids, issue.key, Succeeds)] else [], [], 0, 0)
  }

  function DownloadEffect(ids: Ids, key: string, id: string, outcome: Attempt): Tally {
    match outcome
    case Succeeds => Tally(0, 0, [AttachmentEntry(ids, key, id, Succeeds)], [], 0, 0)
    case Fails(_) =>
      Tally(0, 1, [AttachmentEntry(ids, key, id, outcome)],
            [JobError(ids.jobId, ids.backupPointId, AttachmentId(key, id), AttachmentError)], 0, 1)
  }

  /** Every attachment ticks once as processed, besides the failed tick of a failed download. */
  const ATTACHMENT_TICK: Tally := Tally(0, 0, [], [], 1, 0)

  predicate NoNull(attachments: seq<Attachment>) {
    NullReference !in attachments
  }

  function AttachmentEffect(ids: Ids, key: string, attachment: Attachment): Tally {
    match attachment
    case NullReference => NOTHING
    case Attachment(id, download) => Plus(DownloadEffect(ids, key, id, download), ATTACHMENT_TICK)
  }

  function AttachmentsEffect(ids: Ids, key: string, attachments: seq<Attachment>): Tally {
    if attachments == [] then NOTHING
    else Plus(AttachmentsEffect(ids, key, attachments[..|attachments| - 1]),
              AttachmentEffect(ids, key, attachments[|attachments| - 1]))
  }

  /** The attachments before the first null reference, at which the loop throws. */
  function BeforeNull(attachments: seq<Attachment>): seq<Attachment> {
    if attachments == [] || attachments[0].NullReference? then [] else [attachments[0]] + BeforeNull(attachments[1..])
  }

  /** The first of the three steps that fails. */
  function Preparation(issue: Issue): Attempt {
    if issue.readFields.Fails? then issue.readFields
    else if issue.fetchSupplements.Fails? then issue.fetchSupplements
    else issue.writePayload
  }

  const NULL_MESSAGE: string := "null"

  const BINDING_MESSAGE: string := "binding"

  /** The issue was counted as captured before a null attachment made it fail. */
  predicate FailsAfterCapture(issue: Issue) {
    Preparation(issue).Succeeds? && !NoNull(issue.attachments)
  }

  predicate IssueFails(issue: Issue) {
    Preparation(issue).Fails? || !NoNull(issue.attachments)
  }

  /** The catch block throws too; the error table is there only when it is `wired`. */
  predicate FailureThrows(issue: Issue, wired: bool) {
    issue.binding.Unbindable? || (issue.binding.AsNull? && wired)
  }

  /** The issue at which a run breaks off. */
  predicate BreaksOff(issue: Issue, wired: bool) {
    issue.binding.Unbindable? || (FailureThrows(issue, wired) && IssueFails(issue))
  }

  predicate Breaks(element: Element, wired: bool) {
    element.NullElement? || BreaksOff(element.issue, wired)
  }

  /** What an issue adds at which the run does not break off. */
  function IssueEffect(ids: Ids, issue: Issue): Tally {
    match Preparation(issue)
    case Fails(message) => IssueFailure(ids, issue, message)
    case Succeeds =>
      Plus(Plus(CAPTURED, AttachmentsEffect(ids, issue.key, BeforeNull(issue.attachments))), IssueEnd(ids, issue))
  }

  /** The last entry of an issue that was counted as captured. */
  function IssueEnd(ids: Ids, issue: Issue): Tally {
    if NoNull(issue.attachments) then IssueRecorded(ids, issue) else IssueFailure(ids, issue, NULL_MESSAGE)
  }

  lemma IssueEffectAdds(ids: Ids, issue: Issue, done: Tally)
    requires Preparation(issue).Succeeds?
    ensures Plus(done, IssueEffect(ids, issue))
            == Plus(Plus(Plus(done, CAPTURED), AttachmentsEffect(ids, issue.key, BeforeNull(issue.attachments))),
                    IssueEnd(ids, issue))
  {
    ThreeAssociate(done, CAPTURED, AttachmentsEffect(ids, issue.key, BeforeNull(issue.attachments)),
                   IssueEnd(ids, issue));
  }

  lemma ThreeAssociate(done: Tally, a: Tally, b: Tally, c: Tally)
    ensures Plus(done, Plus(Plus(a, b), c)) == Plus(Plus(Plus(done, a), b), c)
  {
    PlusAssociates(done, Plus(a, b), c);
    PlusAssociates(done, a, b);
  }

  function Effect(ids: Ids, issues: seq<Issue>): Tally {
    if issues == [] then NOTHING
    else Plus(Effect(ids, issues[..|issues| - 1]), IssueEffect(ids, issues[|issues| - 1]))
  }

  /** Where a run breaks off, if it does. */
  datatype Stop = Nowhere | AtListing | AtElement(element: Element)

  /**
   What the run adds there, besides the issues before. `early` says that the exception was that of a heartbeat which
   was due when the issue was counted.
   */
  function StopEffect(ids: Ids, stop: Stop, early: bool): Tally {
    if !stop.AtElement? then NOTHING
    else if stop.element.NullElement? then LOST_ERROR
    else BreakEffect(ids, stop.element.issue, early)
  }

  function BreakEffect(ids: Ids, issue: Issue, early: bool): Tally {
    if Preparation(issue).Fails? then LOST_ERROR
    else if early then Plus(CAPTURED, LOST_ERROR)
    else Plus(Plus(CAPTURED, AttachmentsEffect(ids, issue.key, BeforeNull(issue.attachments))), LOST_ERROR)
  }

  function WalkEffect(ids: Ids, walk: Walk, early: bool): Tally {
    Plus(Effect(ids, walk.found), StopEffect(ids, walk.stop, early))
  }

  /** What a run goes through: the issues before it breaks off, and where it does. */
  datatype Walk = Walk(found: seq<Issue>, stop: Stop)

  const NOT_YET: Walk := Walk([], Nowhere)

  function Then(first: Walk, second: Walk): Walk {
    if first.stop.Nowhere? then Walk(first.found + second.found, second.stop) else first
  }

  lemma ThenAssociates(a: Walk, b: Walk, c: Walk)
    ensures Then(Then(a, b), c) == Then(a, Then(b, c))
    ensures Then(a, NOT_YET) == a && Then(NOT_YET, a) == a
  {
    assert a.found + b.found + c.found == a.found + (b.found + c.found);
  }

  function WalkElement(element: Element, wired: bool): Walk {
    if Breaks(element, wired) then Walk([], AtElement(element)) else Walk([element.issue], Nowhere)
  }

  function WalkListing(elements: seq<Element>, wired: bool): Walk {
    if elements == [] then NOT_YET else Then(WalkElement(elements[0], wired), WalkListing(elements[1..], wired))
  }

  function WalkProject(project: Project, wired: bool): Walk {
    if project.ListingRejected? then Walk([], AtListing) else WalkListing(project.elements, wired)
  }

  function WalkProjects(projects: seq<Project>, wired: bool): Walk {
    if projects == [] then NOT_YET else Then(WalkProject(projects[0], wired), WalkProjects(projects[1..], wired))
  }

  /**
   Every listing succeeds and holds no null, and of every issue the key can be bound and, if the issue fails while
   error rows are kept, is there.
   */
  predicate NothingBreaks(projects: seq<Project>, wired: bool) {
    forall i :: 0 <= i < |projects| ==>
      projects[i].Listed? && forall k :: 0 <= k < |projects[i].elements| ==> !Breaks(projects[i].elements[k], wired)
  }

  datatype RunResult =
    | RunCompleted(totalIssuesCaptured: nat, totalErrors: nat, jobStatus: Display)
    | Rejected

  // The orchestrator

  class IssueCaptureOrchestrator {
    const ids: Ids
    const writer: BackupPointManifestWriter
    const emitter: HeartbeatEmitter?
    const jobStore: JobStore?
    var totalCaptured: nat
    var totalErrors: nat

    constructor (ids: Ids, writer: BackupPointManifestWriter, emitter: HeartbeatEmitter?, jobStore: JobStore?)
      ensures this.ids == ids && this.writer == writer && this.emitter == emitter && this.jobStore == jobStore
      ensures totalCaptured == 0 && totalErrors == 0
    {
      this.ids := ids;
      this.writer := writer;
      this.emitter := emitter;
      this.jobStore := jobStore;
      totalCaptured := 0;
      totalErrors := 0;
    }

    ghost predicate Valid() {
      writer.config.backupPointId == ids.backupPointId && writer !in Frame() && writer.repo !in Frame()
    }

    /** Everything a run may change, besides the item table. */
    ghost function Frame(): set<object> {
      {this}
      + (if emitter == null then {} else {emitter, emitter.jobStore, emitter.bus})
      + (if jobStore == null then {} else {jobStore})
    }

    /** All four places stand at `base` plus `done`. */
    ghost predicate CountsAre(base: Tally, done: Tally)
      reads this, writer.repo, emitter, jobStore
    {
      && totalCaptured == base.captured + done.captured
      && totalErrors == base.errors + done.errors
      && writer.repo.items == base.items + done.items
      && (jobStore != null ==> jobStore.errors == base.jobErrors + done.jobErrors)
      && (emitter != null ==> emitter.itemsProcessed == base.processed + done.processed
                              && emitter.itemsFailed == base.failed + done.failed)
    }

    ghost predicate Started()
      reads emitter, if emitter == null then {} else {emitter.jobStore}
    {
      emitter != null ==> emitter.jobId in emitter.jobStore.rows && emitter.timer
    }

    ghost predicate At(base: Tally, done: Tally)
      reads this, writer.repo, emitter, jobStore, if emitter == null then {} else {emitter.jobStore}
    {
      CountsAre(base, done) && Started()
    }

    predicate Wired() {
      jobStore != null
    }

    /** All four places stand at `done` and the attachments handled since. */
    ghost predicate AtAttachments(base: Tally, done: Tally, key: string, handled: seq<Attachment>)
      reads this, writer.repo, emitter, jobStore, if emitter == null then {} else {emitter.jobStore}
    {
      At(base, Plus(done, AttachmentsEffect(ids, key, handled)))
    }

    /** Any reading: heartbeats depend on it, counts do not. */
    method ReadClock() returns (now: int) {
      now := *;
    }

    method Tick(failed: bool, keyBinds: bool) returns (threw: bool)
      modifies if emitter == null then {} else {emitter, emitter.jobStore, emitter.bus}
      ensures threw ==> emitter != null && !keyBinds
      ensures emitter != null ==> emitter.itemsProcessed == old(emitter.itemsProcessed) + (if failed then 0 else 1)
                                  && emitter.itemsFailed == old(emitter.itemsFailed) + (if failed then 1 else 0)
      ensures emitter != null ==> emitter.jobStore.errors == old(emitter.jobStore.errors)
      ensures old(Started()) ==> Started()
    {
      threw := false;
      if emitter != null {
        var now := ReadClock();
        threw := emitter.Tick(failed, keyBinds, now);
      }
    }

    /** A tick for a captured item changes nothing but the emitter's count. */
    method TickProcessed(ghost base: Tally, ghost done: Tally)
      requires Valid() && At(base, done)
      modifies if emitter == null then {} else {emitter, emitter.jobStore, emitter.bus}
      ensures At(base, Plus(done, ATTACHMENT_TICK))
    {
      var _ := Tick(false, true);
      PlusAssociates(done, NOTHING, NOTHING);
    }

    /** The insert ignores a row without an object id, and throws for an id that cannot be bound. */
    method AppendIssueEntry(issue: Issue, outcome: Attempt) returns (threw: bool)
      requires Valid()
      modifies writer.repo`items
      ensures threw <==> issue.binding.Unbindable?
      ensures writer.repo.items == old(writer.repo.items)
                                   + if issue.binding.AsText? then [IssueEntry(ids, issue.key, outcome)] else []
    {
      if issue.binding.AsText? {
        writer.AppendEntry(JiraIssue, IssueId(issue.key), IssueSearch, outcome.Succeeds?,
                           if outcome.Succeeds? then None else Some(outcome.message));
      }
      threw := issue.binding.Unbindable?;
    }

    method CountError(ghost base: Tally, ghost done: Tally)
      requires Valid() && At(base, done)
      modifies Frame(), writer.repo`items
      ensures At(base, Plus(done, LOST_ERROR))
    {
      PlusAssociates(done, NOTHING, NOTHING);
      totalErrors := totalErrors + 1;
    }

    /** The catch block of `CaptureIssue`, which may itself throw. */
    method RecordIssueError(issue: Issue, message: string, ghost base: Tally, ghost done: Tally) returns (threw: bool)
      requires Valid() && At(base, done)
      modifies Frame(), writer.repo`items
      ensures threw <==> FailureThrows(issue, Wired())
      ensures At(base, Plus(done, if threw then LOST_ERROR else IssueFailure(ids, issue, message)))
    {
      CountError(base, done);
      if issue.binding.AsText? {
        RecordTextError(issue, message, base, done);
        return false;
      }
      threw := RecordKeylessError(issue, message, base, done);
    }

    /** With the error counted and a key that is a text, every place takes its record. */
    method RecordTextError(issue: Issue, message: string, ghost base: Tally, ghost done: Tally)
      requires Valid() && At(base, Plus(done, LOST_ERROR)) && issue.binding.AsText?
      modifies Frame(), writer.repo`items
      ensures At(base, Plus(done, IssueFailure(ids, issue, message)))
    {
      var _ := AppendIssueEntry(issue, Fails(message));
      if jobStore != null {
        jobStore.InsertJobError(JobError(ids.jobId, ids.backupPointId, IssueId(issue.key), ApiError));
      }
      var _ := Tick(true, true);
    }

    method RecordKeylessError(issue: Issue, message: string, ghost base: Tally, ghost done: Tally) returns (threw: bool)
      requires Valid() && At(base, Plus(done, LOST_ERROR)) && !issue.binding.AsText?
      modifies Frame(), writer.repo`items
      ensures threw <==> FailureThrows(issue, Wired())
      ensures At(base, Plus(done, if threw then LOST_ERROR else IssueFailure(ids, issue, message)))
    {
      PlusAssociates(done, NOTHING, NOTHING);
      threw := AppendIssueEntry(issue, Fails(message));
      if threw || jobStore != null {
        return true;
      }
      var _ := Tick(true, true);
    }

    /** Never throws for a proper attachment reference; its failures are recorded on their own. */
    method DownloadAttachment(id: string, download: Attempt, key: string, ghost base: Tally, ghost done: Tally)
      requires Valid() && At(base, done)
      modifies Frame(), writer.repo`items
      ensures At(base, Plus(done, DownloadEffect(ids, key, id, download)))
    {
      var sourceEndpoint := AttachmentContent(id);
      match download {
        case Succeeds =>
          writer.AppendEntry(JiraIssue, AttachmentId(key, id), sourceEndpoint, true, None);
        case Fails(message) =>
          totalErrors := totalErrors + 1;
          writer.AppendEntry(JiraIssue, AttachmentId(key, id), sourceEndpoint, false, Some(message));
          if jobStore != null {
            jobStore.InsertJobError(
              JobError(ids.jobId, ids.backupPointId, AttachmentId(key, id), AttachmentError));
          }
          var _ := Tick(true, true);
      }
    }

    /** The body of the attachment loop. */
    method HandleAttachment(id: string, download: Attempt, key: string, ghost base: Tally, ghost done: Tally)
      requires Valid() && At(base, done)
      modifies Frame(), writer.repo`items
      ensures At(base, Plus(done, AttachmentEffect(ids, key, Attachment(id, download))))
    {
      ghost var effect := DownloadEffect(ids, key, id, download);
      DownloadAttachment(id, download, key, base, done);
      TickProcessed(base, Plus(done, effect));
      PlusAssociates(done, effect, ATTACHMENT_TICK);
    }

    method HandleNext(id: string, download: Attempt, key: string, ghost base: Tally, ghost done: Tally,
                      ghost handled: seq<Attachment>)
      requires Valid() && AtAttachments(base, done, key, handled)
      modifies Frame(), writer.repo`items
      ensures AtAttachments(base, done, key, handled + [Attachment(id, download)])
    {
      HandleAttachment(id, download, key, base, Plus(done, AttachmentsEffect(ids, key, handled)));
      OneMoreAttachment(ids, key, handled, Attachment(id, download), done);
    }

    /** The attachment loop; it is left by a throw at the first null reference. */
    method DownloadAttachments(attachments: seq<Attachment>, key: string, ghost base: Tally, ghost done: Tally)
      returns (threw: bool)
      requires Valid() && At(base, done)
      modifies Frame(), writer.repo`items
      ensures At(base, Plus(done, AttachmentsEffect(ids, key, BeforeNull(attachments))))
      ensures threw <==> !NoNull(attachments)
    {
      ghost var handled: seq<Attachment> := [];
      PlusAssociates(done, NOTHING, NOTHING);
      for i := 0 to |attachments|
        invariant HandledBefore(attachments, i, handled) && AtAttachments(base, done, key, handled)
      {
        HandledStep(attachments, i, handled);
        if attachments[i].NullReference? {
          return true;
        }
        HandleNext(attachments[i].id, attachments[i].download, key, base, done, handled);
        handled := handled + [attachments[i]];
      }
      AllHandled(attachments, handled);
      threw := false;
    }

    method CountCaptured(issue: Issue, ghost base: Tally, ghost done: Tally) returns (threw: bool)
      requires Valid() && At(base, done)
      modifies Frame(), writer.repo`items
      ensures At(base, Plus(done, CAPTURED))
      ensures threw ==> issue.binding.Unbindable? && emitter != null
    {
      totalCaptured := totalCaptured + 1;
      threw := Tick(false, !issue.binding.Unbindable?);
      PlusAssociates(done, NOTHING, NOTHING);
    }

    method RecordIssue(issue: Issue, ghost base: Tally, ghost done: Tally) returns (threw: bool)
      requires Valid() && At(base, done)
      modifies Frame(), writer.repo`items
      ensures threw <==> issue.binding.Unbindable?
      ensures At(base, Plus(done, if threw then NOTHING else IssueRecorded(ids, issue)))
    {
      PlusAssociates(done, NOTHING, NOTHING);
      threw := AppendIssueEntry(issue, Succeeds);
    }

    /** After the attachments: the entry of the issue, or the catch block. */
    method FinishIssue(issue: Issue, nullReached: bool, ghost base: Tally, ghost done: Tally) returns (threw: bool)
      requires Valid() && At(base, done) && Preparation(issue).Succeeds? && nullReached == !NoNull(issue.attachments)
      modifies Frame(), writer.repo`items
      ensures threw <==> BreaksOff(issue, Wired())
      ensures At(base, Plus(done, if threw then LOST_ERROR else IssueEnd(ids, issue)))
    {
      if nullReached {
        threw := RecordIssueError(issue, NULL_MESSAGE, base, done);
      } else {
        var refused := RecordIssue(issue, base, done);
        threw := false;
        if refused {
          PlusAssociates(done, NOTHING, NOTHING);
          threw := RecordIssueError(issue, BINDING_MESSAGE, base, done);
        }
      }
    }

    /** From the count of the captured issue on. */
    method CapturePrepared(issue: Issue, ghost base: Tally, ghost done: Tally) returns (threw: bool, ghost early: bool)
      requires Valid() && At(base, done) && Preparation(issue).Succeeds?
      modifies Frame(), writer.repo`items
      ensures threw <==> BreaksOff(issue, Wired())
      ensures early ==> threw && issue.binding.Unbindable? && emitter != null
      ensures At(base, Plus(done, if threw then BreakEffect(ids, issue, early) else IssueEffect(ids, issue)))
    {
      ghost var atts := AttachmentsEffect(ids, issue.key, BeforeNull(issue.attachments));
      threw := CountCaptured(issue, base, done);
      early := threw;
      if threw {
        threw := RecordIssueError(issue, BINDING_MESSAGE, base, Plus(done, CAPTURED));
        PlusAssociates(done, CAPTURED, LOST_ERROR);
        return;
      }
      var nullReached := DownloadAttachments(issue.attachments, issue.key, base, Plus(done, CAPTURED));
      threw := FinishIssue(issue, nullReached, base, Plus(Plus(done, CAPTURED), atts));
      ThreeAssociate(done, CAPTURED, atts, if threw then LOST_ERROR else IssueEnd(ids, issue));
    }

    method CaptureIssue(issue: Issue, ghost base: Tally, ghost done: Tally) returns (threw: bool, ghost early: bool)
      requires Valid() && At(base, done)
      modifies Frame(), writer.repo`items
      ensures threw <==> BreaksOff(issue, Wired())
      ensures early ==> threw && issue.binding.Unbindable? && emitter != null
      ensures At(base, Plus(done, if threw then BreakEffect(ids, issue, early) else IssueEffect(ids, issue)))
    {
      early := false;
      if issue.readFields.Fails? {
        threw := RecordIssueError(issue, issue.readFields.message, base, done);
      } else if issue.fetchSupplements.Fails? {
        threw := RecordIssueError(issue, issue.fetchSupplements.message, base, done);
      } else if issue.writePayload.Fails? {
        threw := RecordIssueError(issue, issue.writePayload.message, base, done);
      } else {
        threw, early := CapturePrepared(issue, base, done);
      }
    }

    /** Nothing can be read of a null element: its fields throw and then, in the catch block, its key. */
    method CaptureElement(element: Element, ghost base: Tally, ghost sofar: Walk, ghost done: Tally)
      returns (threw: bool, ghost early: bool, ghost now: Tally)
      requires Valid() && At(base, done) && sofar.stop.Nowhere? && done == Effect(ids, sofar.found)
      modifies Frame(), writer.repo`items
      ensures threw <==> Breaks(element, Wired())
      ensures early ==> threw && emitter != null
      ensures At(base, now) && now == WalkEffect(ids, Then(sofar, WalkElement(element, Wired())), early)
    {
      if element.NullElement? {
        CountError(base, done);
        threw, early, now := true, false, Plus(done, LOST_ERROR);
        WalkBreaks(ids, sofar, element, Wired(), false, done, now);
      } else {
        threw, early := CaptureIssue(element.issue, base, done);
        if threw {
          now := Plus(done, BreakEffect(ids, element.issue, early));
          WalkBreaks(ids, sofar, element, Wired(), early, done, now);
        } else {
          now := Plus(done, IssueEffect(ids, element.issue));
          WalkGoesOn(ids, sofar, element, Wired(), done, now);
        }
      }
    }

    /** A rejected listing escapes, and so does an exception of the catch block. */
    method CaptureProject(project: Project, ghost base: Tally, ghost before: Walk, ghost done: Tally)
      returns (threw: bool, ghost after: Walk, ghost early: bool, ghost now: Tally)
      requires Valid() && At(base, done) && before.stop.Nowhere? && done == Effect(ids, before.found)
      modifies Frame(), writer.repo`items
      ensures after == Then(before, WalkProject(project, Wired()))
      ensures threw <==> !after.stop.Nowhere?
      ensures early ==> threw && emitter != null
      ensures At(base, now) && now == WalkEffect(ids, after, early)
    {
      if project.ListingRejected? {
        after := Then(before, Walk([], AtListing));
        WalkRejected(ids, before, after, done);
        return true, after, false, done;
      }
      threw, after, early, now := CaptureListing(project.elements, base, before, done);
    }

    method CaptureListing(elements: seq<Element>, ghost base: Tally, ghost before: Walk, ghost done: Tally)
      returns (threw: bool, ghost after: Walk, ghost early: bool, ghost now: Tally)
      requires Valid() && At(base, done) && before.stop.Nowhere? && done == Effect(ids, before.found)
      modifies Frame(), writer.repo`items
      ensures after == Then(before, WalkListing(elements, Wired()))
      ensures threw <==> !after.stop.Nowhere?
      ensures early ==> threw && emitter != null
      ensures At(base, now) && now == WalkEffect(ids, after, early)
    {
      threw, after, early, now := false, before, false, done;
      ghost var whole := Then(before, WalkListing(elements, Wired()));
      for i := 0 to |elements|
        invariant !threw && !early && At(base, now) && after.stop.Nowhere? && now == Effect(ids, after.found)
        invariant Then(after, WalkListing(elements[i..], Wired())) == whole
      {
        ListingStep(elements, Wired(), i, after, whole);
        threw, early, now := CaptureElement(elements[i], base, after, now);
        after := Then(after, WalkElement(elements[i], Wired()));
        if threw {
          return;
        }
        EffectOfWalk(ids, after, now);
      }
      ThenAssociates(after, NOT_YET, NOT_YET);
      EffectOfWalk(ids, after, now);
    }

    /** The loop over projects. */
    method CaptureProjects(projects: seq<Project>, ghost base: Tally)
      returns (threw: bool, ghost early: bool, ghost now: Tally)
      requires Valid() && At(base, NOTHING)
      modifies Frame(), writer.repo`items
      ensures threw <==> !WalkProjects(projects, Wired()).stop.Nowhere?
      ensures early ==> threw && emitter != null
      ensures At(base, now) && now == WalkEffect(ids, WalkProjects(projects, Wired()), early)
    {
      ghost var sofar, whole := NOT_YET, WalkProjects(projects, Wired());
      ThenAssociates(whole, NOT_YET, NOT_YET);
      threw, early, now := false, false, NOTHING;
      for i := 0 to |projects|
        invariant !threw && !early && At(base, now) && sofar.stop.Nowhere? && now == Effect(ids, sofar.found)
        invariant Then(sofar, WalkProjects(projects[i..], Wired())) == whole
      {
        ProjectsStep(projects, Wired(), i, sofar, whole);
        threw, sofar, early, now := CaptureProject(projects[i], base, sofar, now);
        if threw {
          return;
        }
        EffectOfWalk(ids, sofar, now);
      }
      ThenAssociates(sofar, NOT_YET, NOT_YET);
      EffectOfWalk(ids, sofar, now);
    }

    /** The emitter's row now holds the emitter's counts and the status they imply. */
    ghost predicate RowAgrees()
      requires emitter != null
      reads emitter, emitter.jobStore
    {
      && emitter.jobId in emitter.jobStore.rows
      && var row := emitter.jobStore.rows[emitter.jobId];
      && row.itemsProcessed == emitter.itemsProcessed && row.itemsFailed == emitter.itemsFailed
      && row.status == FinalStatus(emitter.itemsProcessed, emitter.itemsFailed)
      && row.display == Some(FinalDisplay(emitter.itemsProcessed, emitter.itemsFailed))
    }

    /** The emitter completes the job when there is one; otherwise the totals go straight to the store. */
    method CompleteJob(ghost base: Tally, ghost done: Tally)
      requires Valid() && At(base, done)
      modifies Frame(), writer.repo`items
      ensures CountsAre(base, done) && totalErrors == old(totalErrors) && totalCaptured == old(totalCaptured)
      ensures emitter != null ==> RowAgrees() && !emitter.timer
      ensures emitter == null && jobStore != null ==>
                exists now ::
                  jobStore.rows == AfterComplete(old(jobStore.rows), ids.jobId, totalCaptured, totalErrors, now)
    {
      if emitter != null {
        var now := ReadClock();
        emitter.Complete(now);
      } else if jobStore != null {
        var now := ReadClock();
        jobStore.CompleteJob(ids.jobId, totalCaptured, totalErrors, now);
      }
    }

    /**
     Failures of items end a run only where the catch block throws itself; a listing that is rejected and a backup
     directory that cannot be made end it too. Then nothing is completed and the timer, once armed, stays armed.
     */
    method Run(projects: seq<Project>, directoryReady: bool, ghost base: Tally)
      returns (r: RunResult, ghost early: bool)
      requires Valid() && CountsAre(base, NOTHING)
      modifies Frame(), writer.repo`items
      ensures early ==> r.Rejected? && emitter != null
      ensures directoryReady ==>
                CountsAre(base, WalkEffect(ids, WalkProjects(projects, Wired()), early))
      ensures !directoryReady ==> CountsAre(base, NOTHING)
      ensures r == if directoryReady && NothingBreaks(projects, Wired())
                   then RunCompleted(totalCaptured, totalErrors, JobStatusOf(totalErrors))
                   else Rejected
      ensures emitter != null && r.RunCompleted? ==> RowAgrees()
      ensures emitter != null ==>
                emitter.timer == if directoryReady then r.Rejected? else old(emitter.timer)
    {
      early := false;
      if !directoryReady {
        return Rejected, false;
      }
      if emitter != null {
        var now := ReadClock();
        emitter.Start(now);
      }
      StopsExactly(projects, Wired());
      var threw;
      ghost var done;
      threw, early, done := CaptureProjects(projects, base);
      if threw {
        return Rejected, early;
      }
      var jobStatus := if totalErrors == 0 then CompletedSuccessfully else CompletedWith(totalErrors);
      CompleteJob(base, done);
      r := RunCompleted(totalCaptured, totalErrors, jobStatus);
    }
  }

  /** The first `i` attachments are no null references, and `handled` lists them. */
  ghost predicate HandledBefore(attachments: seq<Attachment>, i: nat, handled: seq<Attachment>) {
    i <= |attachments| && handled == attachments[..i] && NoNull(handled)
  }

  lemma HandledStep(attachments: seq<Attachment>, i: nat, handled: seq<Attachment>)
    requires i < |attachments| && HandledBefore(attachments, i, handled)
    ensures if attachments[i].NullReference? then handled == BeforeNull(attachments) && !NoNull(attachments)
            else HandledBefore(attachments, i + 1, handled + [attachments[i]])
  {
    if attachments[i].NullReference? {
      BeforeNullIs(handled, attachments[i..]);
      assert handled + attachments[i..] == attachments;
    }
  }

  lemma AllHandled(attachments: seq<Attachment>, handled: seq<Attachment>)
    requires HandledBefore(attachments, |attachments|, handled)
    ensures handled == BeforeNull(attachments) && NoNull(attachments)
  {
    assert handled == attachments && attachments + [] == attachments;
    BeforeNullIs(attachments, []);
  }

  lemma OneMoreAttachment(ids: Ids, key: string, attachments: seq<Attachment>, attachment: Attachment, done: Tally)
    ensures Plus(done, AttachmentsEffect(ids, key, attachments + [attachment]))
            == Plus(Plus(done, AttachmentsEffect(ids, key, attachments)), AttachmentEffect(ids, key, attachment))
  {
    assert (attachments + [attachment])[..|attachments|] == attachments;
    PlusAssociates(done, AttachmentsEffect(ids, key, attachments), AttachmentEffect(ids, key, attachment));
  }

  /** What the run reports. */
  function JobStatusOf(errors: nat): Display {
    if errors == 0 then CompletedSuccessfully else CompletedWith(errors)
  }

  lemma EffectStep(ids: Ids, issues: seq<Issue>, issue: Issue)
    ensures Effect(ids, issues + [issue]) == Plus(Effect(ids, issues), IssueEffect(ids, issue))
  {
    assert (issues + [issue])[..|issues|] == issues;
  }

  lemma {:induction false} BeforeNullIs(proper: seq<Attachment>, rest: seq<Attachment>)
    requires NoNull(proper) && (rest == [] || rest[0].NullReference?)
    ensures BeforeNull(proper + rest) == proper
  {
    if proper == [] {
      assert proper + rest == rest;
    } else {
      assert (proper + rest)[1..] == proper[1..] + rest;
      BeforeNullIs(proper[1..], rest);
    }
  }

  /** The run breaks off at the element. */
  lemma WalkBreaks(ids: Ids, sofar: Walk, element: Element, wired: bool, early: bool, done: Tally, now: Tally)
    requires sofar.stop.Nowhere? && done == Effect(ids, sofar.found) && Breaks(element, wired)
    requires now == Plus(done, StopEffect(ids, AtElement(element), early))
    ensures now == WalkEffect(ids, Then(sofar, WalkElement(element, wired)), early)
  {
    assert sofar.found + [] == sofar.found;
  }

  /** The run goes through the element. */
  lemma WalkGoesOn(ids: Ids, sofar: Walk, element: Element, wired: bool, done: Tally, now: Tally)
    requires sofar.stop.Nowhere? && done == Effect(ids, sofar.found) && !Breaks(element, wired)
    requires now == Plus(done, IssueEffect(ids, element.issue))
    ensures now == WalkEffect(ids, Then(sofar, WalkElement(element, wired)), false)
  {
    EffectStep(ids, sofar.found, element.issue);
    EffectOfWalk(ids, Walk(sofar.found + [element.issue], Nowhere), now);
  }

  /** A run that has not broken off stands where its issues leave it. */
  lemma EffectOfWalk(ids: Ids, walk: Walk, effect: Tally)
    requires walk.stop.Nowhere? && (effect == Effect(ids, walk.found) || effect == WalkEffect(ids, walk, false))
    ensures effect == Effect(ids, walk.found) == WalkEffect(ids, walk, false)
  {
    AddNothing(Effect(ids, walk.found), StopEffect(ids, walk.stop, false));
  }

  lemma AddNothing(effect: Tally, nothing: Tally)
    requires nothing == NOTHING
    ensures Plus(effect, nothing) == effect
  {
    PlusAssociates(effect, NOTHING, NOTHING);
  }

  lemma WalkRejected(ids: Ids, before: Walk, after: Walk, done: Tally)
    requires before.stop.Nowhere? && after == Then(before, Walk([], AtListing)) && done == Effect(ids, before.found)
    ensures done == WalkEffect(ids, after, false)
  {
    assert after.found == before.found;
    AddNothing(done, StopEffect(ids, after.stop, false));
  }

  lemma ListingStep(elements: seq<Element>, wired: bool, i: nat, sofar: Walk, whole: Walk)
    requires i < |elements| && Then(sofar, WalkListing(elements[i..], wired)) == whole
    ensures var next := Then(sofar, WalkElement(elements[i], wired));
            && Then(next, WalkListing(elements[i + 1..], wired)) == whole
            && (!next.stop.Nowhere? ==> next == whole)
  {
    assert elements[i..][1..] == elements[i + 1..];
    ThenAssociates(sofar, WalkElement(elements[i], wired), WalkListing(elements[i + 1..], wired));
  }

  lemma ProjectsStep(projects: seq<Project>, wired: bool, i: nat, sofar: Walk, whole: Walk)
    requires i < |projects| && Then(sofar, WalkProjects(projects[i..], wired)) == whole
    ensures var next := Then(sofar, WalkProject(projects[i], wired));
            && Then(next, WalkProjects(projects[i + 1..], wired)) == whole
            && (!next.stop.Nowhere? ==> next == whole)
  {
    assert projects[i..][1..] == projects[i + 1..];
    ThenAssociates(sofar, WalkProject(projects[i], wired), WalkProjects(projects[i + 1..], wired));
  }

  lemma {:induction false} NoStopIn(elements: seq<Element>, wired: bool)
    ensures WalkListing(elements, wired).stop.Nowhere?
            <==> forall k :: 0 <= k < |elements| ==> !Breaks(elements[k], wired)
  {
    if elements != [] {
      NoStopIn(elements[1..], wired);
      assert forall k :: 1 <= k < |elements| ==> elements[k] == elements[1..][k - 1];
    }
  }

  /** A run goes through exactly when nothing breaks it. */
  lemma {:induction false} StopsExactly(projects: seq<Project>, wired: bool)
    ensures WalkProjects(projects, wired).stop.Nowhere? <==> NothingBreaks(projects, wired)
  {
    if projects != [] {
      StopsExactly(projects[1..], wired);
      assert forall i :: 1 <= i < |projects| ==> projects[i] == projects[1..][i - 1];
      if projects[0].Listed? {
        NoStopIn(projects[0].elements, wired);
      }
    }
  }
}
