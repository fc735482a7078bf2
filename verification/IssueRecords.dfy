/**
 The rows that issue capture leaves (src/capture/IssueCaptureOrchestrator.ts), field by field: what a single issue adds,
 which issues a run gets to, and that the error rows mirror the error entries.
 */
module IssueRecords {
  import opened Common
  import opened ManifestTypes
  import opened Jobs
  import opened IssueCapture
  import opened IssueAccounts

  /** The entry of the attachment: under the object type of issues, ok exactly if it was stored. */
  predicate RecordsAttachment(item: ItemEntry, ids: Ids, key: string, attachment: Attachment) {
    && attachment.Attachment?
    && item.backupPointId == ids.backupPointId && item.objectType == JiraIssue
    && item.objectId == AttachmentId(key, attachment.id) && item.sourceEndpoint == AttachmentContent(attachment.id)
    && item.ok == attachment.download.Succeeds?
    && item.errorMessage == if attachment.download.Fails? then Some(attachment.download.message) else None
  }

  /** The entry of the issue itself: ok exactly if nothing failed, or with the message of what failed first. */
  predicate RecordsIssue(item: ItemEntry, ids: Ids, issue: Issue) {
    && item.backupPointId == ids.backupPointId && item.objectType == JiraIssue
    && item.objectId == IssueId(issue.key) && item.sourceEndpoint == IssueSearch
    && item.ok == (IsPrepared(issue) && !ListsNull(issue))
    && item.errorMessage == FailureMessage(issue)
  }

  /** The attachments that are reached: those before the first null. */
  predicate ReachesTo(attachments: seq<Attachment>, n: nat) {
    && n <= |attachments| && (forall i :: 0 <= i < n ==> attachments[i].Attachment?)
    && (n < |attachments| ==> attachments[n].NullReference?)
  }

  lemma {:induction false} BeforeNullReaches(attachments: seq<Attachment>)
    ensures ReachesTo(attachments, |BeforeNull(attachments)|)
    ensures BeforeNull(attachments) == attachments[..|BeforeNull(attachments)|]
  {
    if attachments != [] && attachments[0].Attachment? {
      BeforeNullReaches(attachments[1..]);
    }
  }

  lemma {:induction false} AttachmentsAreRecorded(ids: Ids, key: string, attachments: seq<Attachment>, t: Tally)
    requires t == AttachmentsEffect(ids, key, attachments) && NullReference !in attachments
    ensures |t.items| == |attachments| == t.processed
    ensures forall i :: 0 <= i < |attachments| ==> RecordsAttachment(t.items[i], ids, key, attachments[i])
    ensures t.captured == 0
  {
    if attachments != [] {
      var n := |attachments| - 1;
      AttachmentsAreRecorded(ids, key, attachments[..n], AttachmentsEffect(ids, key, attachments[..n]));
      assert attachments[n] != NullReference;
      assert t.items == AttachmentsEffect(ids, key, attachments[..n]).items
                        + [AttachmentEntry(ids, key, attachments[n].id, attachments[n].download)];
    }
  }

  lemma FailureIsRecorded(ids: Ids, issue: Issue, message: string, t: Tally)
    requires t == IssueFailure(ids, issue, message) && FailureMessage(issue) == Some(message)
    ensures |t.items| == One(HasKey(issue)) && t.captured == 0
    ensures HasKey(issue) ==> RecordsIssue(t.items[0], ids, issue)
  {
  }

  lemma EndIsRecorded(ids: Ids, issue: Issue, t: Tally)
    requires t == IssueEnd(ids, issue) && IsPrepared(issue)
    ensures |t.items| == One(HasKey(issue)) && t.captured == 0
    ensures HasKey(issue) ==> RecordsIssue(t.items[0], ids, issue)
  {
    if !NoNull(issue.attachments) {
      FailureIsRecorded(ids, issue, NULL_MESSAGE, t);
    }
  }

  lemma PreparedIsRecorded(ids: Ids, issue: Issue, attachments: seq<Attachment>, atts: Tally, end: Tally, t: Tally)
    requires IsPrepared(issue) && NullReference !in attachments && attachments <= issue.attachments
    requires atts == AttachmentsEffect(ids, issue.key, attachments) && end == IssueEnd(ids, issue)
    requires t.items == atts.items + end.items
    ensures var n := |attachments|;
            && |t.items| == n + One(HasKey(issue))
            && (forall i :: 0 <= i < n ==> RecordsAttachment(t.items[i], ids, issue.key, issue.attachments[i]))
            && (HasKey(issue) ==> RecordsIssue(t.items[n], ids, issue))
  {
    AttachmentsAreRecorded(ids, issue.key, attachments, atts);
    EndIsRecorded(ids, issue, end);
  }

  /** What the issue adds to the items: the attachments it reaches if it was prepared, and then its own entry. */
  lemma IssueIsRecorded(ids: Ids, issue: Issue, n: nat, t: Tally)
    requires t == IssueEffect(ids, issue) && ReachesTo(issue.attachments, n)
    ensures var reached := if IsPrepared(issue) then n else 0;
            && |t.items| == reached + One(HasKey(issue))
            && (forall i :: 0 <= i < reached ==> RecordsAttachment(t.items[i], ids, issue.key, issue.attachments[i]))
            && (HasKey(issue) ==> RecordsIssue(t.items[reached], ids, issue))
    ensures t.captured == One(IsPrepared(issue))
  {
    WhatFails(issue);
    if IsPrepared(issue) {
      BeforeNullReaches(issue.attachments);
      var attachments := BeforeNull(issue.attachments);
      assert |attachments| == n;
      var atts, end := AttachmentsEffect(ids, issue.key, attachments), IssueEnd(ids, issue);
      AttachmentsAreRecorded(ids, issue.key, attachments, atts);
      EndIsRecorded(ids, issue, end);
      PreparedItems(t, atts, end);
      PreparedIsRecorded(ids, issue, attachments, atts, end, t);
    } else {
      FailureIsRecorded(ids, issue, FailureMessage(issue).value, t);
    }
  }

  lemma PreparedItems(t: Tally, atts: Tally, end: Tally)
    requires t == Plus(Plus(CAPTURED, atts), end)
    ensures t.items == atts.items + end.items && t.captured == 1 + atts.captured + end.captured
  {
    assert CAPTURED.items + atts.items == atts.items;
  }

  // Error rows

  /** One row per error entry, about the same object. */
  function ErrorRows(ids: Ids, items: seq<ItemEntry>): seq<JobError> {
    if items == [] then []
    else
      var last := items[|items| - 1];
      ErrorRows(ids, items[..|items| - 1])
      + if last.ok then []
        else [JobError(ids.jobId, ids.backupPointId, last.objectId,
                       if last.sourceEndpoint.IssueSearch? then ApiError else AttachmentError)]
  }

  lemma {:induction false} ErrorRowsConcat(ids: Ids, a: seq<ItemEntry>, b: seq<ItemEntry>)
    ensures ErrorRows(ids, a + b) == ErrorRows(ids, a) + ErrorRows(ids, b)
  {
    if b == [] {
      assert a + b == a;
    } else {
      var n := |b| - 1;
      assert (a + b)[..|a + b| - 1] == a + b[..n];
      ErrorRowsConcat(ids, a, b[..n]);
    }
  }

  predicate Mirrors(ids: Ids, t: Tally) {
    t.jobErrors == ErrorRows(ids, t.items)
  }

  lemma BothMirror(ids: Ids, a: Tally, b: Tally, sum: Tally)
    requires Mirrors(ids, a) && Mirrors(ids, b) && sum == Plus(a, b)
    ensures Mirrors(ids, sum)
  {
    ErrorRowsConcat(ids, a.items, b.items);
  }

  lemma OneItemMirrors(ids: Ids, item: ItemEntry, t: Tally)
    requires t.items == [item]
    requires t.jobErrors == if item.ok then []
                            else [JobError(ids.jobId, ids.backupPointId, item.objectId,
                                           if item.sourceEndpoint.IssueSearch? then ApiError else AttachmentError)]
    ensures Mirrors(ids, t)
  {
    assert t.items[..0] == [];
    assert ErrorRows(ids, t.items[..0]) == [];
  }

  lemma NoItemMirrors(ids: Ids, t: Tally)
    requires t.items == [] && t.jobErrors == []
    ensures Mirrors(ids, t)
  {
  }

  lemma AttachmentMirrors(ids: Ids, key: string, attachment: Attachment, t: Tally)
    requires t == AttachmentEffect(ids, key, attachment)
    ensures Mirrors(ids, t)
  {
    if attachment.Attachment? {
      OneItemMirrors(ids, AttachmentEntry(ids, key, attachment.id, attachment.download), t);
    } else {
      NoItemMirrors(ids, t);
    }
  }

  lemma {:induction false} AttachmentsMirror(ids: Ids, key: string, attachments: seq<Attachment>, t: Tally)
    requires t == AttachmentsEffect(ids, key, attachments)
    ensures Mirrors(ids, t)
  {
    if attachments == [] {
      NoItemMirrors(ids, t);
    } else {
      var n := |attachments| - 1;
      var before, last := AttachmentsEffect(ids, key, attachments[..n]), AttachmentEffect(ids, key, attachments[n]);
      AttachmentsMirror(ids, key, attachments[..n], before);
      AttachmentMirrors(ids, key, attachments[n], last);
      BothMirror(ids, before, last, t);
    }
  }

  lemma FailureMirrors(ids: Ids, issue: Issue, message: string, t: Tally)
    requires t == IssueFailure(ids, issue, message)
    ensures Mirrors(ids, t)
  {
    if issue.binding.AsText? {
      OneItemMirrors(ids, IssueEntry(ids, issue.key, Fails(message)), t);
    } else {
      NoItemMirrors(ids, t);
    }
  }

  lemma EndMirrors(ids: Ids, issue: Issue, t: Tally)
    requires t == IssueEnd(ids, issue)
    ensures Mirrors(ids, t)
  {
    if !NoNull(issue.attachments) {
      FailureMirrors(ids, issue, NULL_MESSAGE, t);
    } else if issue.binding.AsText? {
      OneItemMirrors(ids, IssueEntry(ids, issue.key, Succeeds), t);
    } else {
      NoItemMirrors(ids, t);
    }
  }

  lemma CapturedMirrors(ids: Ids, issue: Issue, end: Tally, t: Tally)
    requires Mirrors(ids, end)
    requires t == Plus(Plus(CAPTURED, AttachmentsEffect(ids, issue.key, BeforeNull(issue.attachments))), end)
    ensures Mirrors(ids, t)
  {
    var atts := AttachmentsEffect(ids, issue.key, BeforeNull(issue.attachments));
    AttachmentsMirror(ids, issue.key, BeforeNull(issue.attachments), atts);
    NoItemMirrors(ids, CAPTURED);
    BothMirror(ids, CAPTURED, atts, Plus(CAPTURED, atts));
    BothMirror(ids, Plus(CAPTURED, atts), end, t);
  }

  lemma IssueMirrors(ids: Ids, issue: Issue, t: Tally)
    requires t == IssueEffect(ids, issue)
    ensures Mirrors(ids, t)
  {
    var preparation := Preparation(issue);
    if preparation.Fails? {
      FailureMirrors(ids, issue, preparation.message, t);
    } else {
      EndMirrors(ids, issue, IssueEnd(ids, issue));
      CapturedMirrors(ids, issue, IssueEnd(ids, issue), t);
    }
  }

  lemma {:induction false} IssuesMirror(ids: Ids, issues: seq<Issue>, t: Tally)
    requires t == Effect(ids, issues)
    ensures Mirrors(ids, t)
  {
    if issues == [] {
      NoItemMirrors(ids, t);
    } else {
      var n := |issues| - 1;
      var before, last := Effect(ids, issues[..n]), IssueEffect(ids, issues[n]);
      IssuesMirror(ids, issues[..n], before);
      IssueMirrors(ids, issues[n], last);
      BothMirror(ids, before, last, t);
    }
  }

  lemma StopMirrors(ids: Ids, stop: Stop, early: bool, t: Tally)
    requires t == StopEffect(ids, stop, early)
    ensures Mirrors(ids, t)
  {
    NoItemMirrors(ids, LOST_ERROR);
    NoItemMirrors(ids, CAPTURED);
    if !CountedAtStop(stop) {
      if stop.AtElement? {
        StopWithoutCount(ids, stop, early, t);
      } else {
        NoItemMirrors(ids, t);
      }
    } else {
      WhatFails(stop.element.issue);
      if early {
        BothMirror(ids, CAPTURED, LOST_ERROR, t);
      } else {
        CapturedMirrors(ids, stop.element.issue, LOST_ERROR, t);
      }
    }
  }

  /** Wherever a run ends, the rows of the error table are those of the error entries, in the same order. */
  lemma ErrorRowsMirrorErrorEntries(ids: Ids, walk: Walk, early: bool)
    ensures WalkEffect(ids, walk, early).jobErrors == ErrorRows(ids, WalkEffect(ids, walk, early).items)
  {
    var issues, stop := Effect(ids, walk.found), StopEffect(ids, walk.stop, early);
    IssuesMirror(ids, walk.found, issues);
    StopMirrors(ids, walk.stop, early, stop);
    BothMirror(ids, issues, stop, WalkEffect(ids, walk, early));
  }

  // What a run gets to

  /** All elements of all listings, in order. */
  function AllElements(projects: seq<Project>): seq<Element> {
    if projects == [] then []
    else (if projects[0].Listed? then projects[0].elements else []) + AllElements(projects[1..])
  }

  /** These issues are the first elements. */
  predicate Starts(issues: seq<Issue>, elements: seq<Element>) {
    |issues| <= |elements| && forall i :: 0 <= i < |issues| ==> elements[i] == Element(issues[i])
  }

  lemma {:induction false} ListingIsWalked(elements: seq<Element>, wired: bool)
    ensures var walk := WalkListing(elements, wired);
            && Starts(walk.found, elements)
            && (walk.stop == Nowhere ==> |walk.found| == |elements|)
            && walk.stop != AtListing
            && (walk.stop.AtElement? ==>
                  && |walk.found| < |elements| && walk.stop.element == elements[|walk.found|]
                  && !GoesThrough(walk.stop.element, wired))
  {
    if elements != [] {
      ListingIsWalked(elements[1..], wired);
      if elements[0].Element? {
        WhatFails(elements[0].issue);
      }
    }
  }

  lemma StartsConcat(a: seq<Issue>, b: seq<Issue>, x: seq<Element>, y: seq<Element>)
    requires Starts(a, x) && |a| == |x| && Starts(b, y)
    ensures Starts(a + b, x + y)
  {
  }

  /**
   A run goes through the elements of its listings in order, up to a rejected listing or to the first element that it
   does not get past.
   */
  lemma {:induction false} RunIsWalked(projects: seq<Project>, wired: bool)
    ensures var walk, elements := WalkProjects(projects, wired), AllElements(projects);
            && Starts(walk.found, elements)
            && (walk.stop == Nowhere ==> |walk.found| == |elements|)
            && (walk.stop.AtElement? ==>
                  && |walk.found| < |elements| && walk.stop.element == elements[|walk.found|]
                  && !GoesThrough(walk.stop.element, wired))
            && (walk.stop == AtListing ==> exists i :: 0 <= i < |projects| && projects[i].ListingRejected?)
  {
    if projects != [] {
      RunIsWalked(projects[1..], wired);
      if projects[0].Listed? {
        var first, rest := WalkListing(projects[0].elements, wired), WalkProjects(projects[1..], wired);
        ListingIsWalked(projects[0].elements, wired);
        if first.stop == Nowhere {
          StartsConcat(first.found, rest.found, projects[0].elements, AllElements(projects[1..]));
          if rest.stop == AtListing {
            var i :| 0 <= i < |projects[1..]| && projects[1..][i].ListingRejected?;
            assert projects[i + 1].ListingRejected?;
          }
        }
      }
    }
  }
}
