/**
 What the four places of issue capture say together (src/capture/IssueCaptureOrchestrator.ts), for every pattern of
 failures, and what the omission check at the end of a backup makes of it.
 */
module IssueAccounts {
  import opened Common
  import opened ManifestTypes
  import opened ManifestWriter
  import opened Jobs
  import opened IssueCapture

  // Conservation

  predicate IsIssueLevel(item: ItemEntry) {
    item.sourceEndpoint == IssueSearch
  }

  /** The object ids of the issue-level entries among the first `n`, in order. */
  function IssueKeysUpTo(items: seq<ItemEntry>, n: nat): seq<string>
    requires n <= |items|
  {
    if n == 0 then []
    else IssueKeysUpTo(items, n - 1) + if IsIssueLevel(items[n - 1]) then [items[n - 1].objectId.key] else []
  }

  function IssueKeys(items: seq<ItemEntry>): seq<string> {
    IssueKeysUpTo(items, |items|)
  }

  /** Entries by level and outcome. */
  datatype Counts = Counts(okIssues: nat, failedIssues: nat, okAttachments: nat, failedAttachments: nat)

  function CountOne(item: ItemEntry): Counts {
    if IsIssueLevel(item) then (if item.ok then Counts(1, 0, 0, 0) else Counts(0, 1, 0, 0))
    else (if item.ok then Counts(0, 0, 1, 0) else Counts(0, 0, 0, 1))
  }

  function Sum(a: Counts, b: Counts): Counts {
    Counts(a.okIssues + b.okIssues, a.failedIssues + b.failedIssues,
           a.okAttachments + b.okAttachments, a.failedAttachments + b.failedAttachments)
  }

  function CountUpTo(items: seq<ItemEntry>, n: nat): Counts
    requires n <= |items|
  {
    if n == 0 then Counts(0, 0, 0, 0) else Sum(CountUpTo(items, n - 1), CountOne(items[n - 1]))
  }

  function Count(items: seq<ItemEntry>): Counts {
    CountUpTo(items, |items|)
  }

  lemma {:induction false} KeysOfPrefix(a: seq<ItemEntry>, b: seq<ItemEntry>, all: seq<ItemEntry>, n: nat)
    requires n <= |a| && all == a + b
    ensures IssueKeysUpTo(all, n) == IssueKeysUpTo(a, n)
  {
    if n > 0 {
      KeysOfPrefix(a, b, all, n - 1);
    }
  }

  lemma {:induction false} KeysOfSuffix(a: seq<ItemEntry>, b: seq<ItemEntry>, all: seq<ItemEntry>, n: nat)
    requires n <= |b| && all == a + b
    ensures IssueKeysUpTo(all, |a| + n) == IssueKeysUpTo(a, |a|) + IssueKeysUpTo(b, n)
  {
    if n == 0 {
      KeysOfPrefix(a, b, all, |a|);
    } else {
      KeysOfSuffix(a, b, all, n - 1);
      assert all[|a| + n - 1] == b[n - 1];
    }
  }

  lemma {:induction false} CountsOfPrefix(a: seq<ItemEntry>, b: seq<ItemEntry>, all: seq<ItemEntry>, n: nat)
    requires n <= |a| && all == a + b
    ensures CountUpTo(all, n) == CountUpTo(a, n)
  {
    if n > 0 {
      CountsOfPrefix(a, b, all, n - 1);
    }
  }

  lemma SumAssociates(x: Counts, y: Counts, z: Counts)
    ensures Sum(Sum(x, y), z) == Sum(x, Sum(y, z))
  {
  }

  lemma SumWithNothing(x: Counts, zero: Counts)
    requires zero == Counts(0, 0, 0, 0)
    ensures Sum(x, zero) == x
  {
  }

  lemma {:induction false} CountsOfSuffix(a: seq<ItemEntry>, b: seq<ItemEntry>, all: seq<ItemEntry>, n: nat, m: nat)
    requires n <= |b| && all == a + b && m == |a| + n
    ensures CountUpTo(all, m) == Sum(Count(a), CountUpTo(b, n))
  {
    if n == 0 {
      CountsOfPrefix(a, b, all, |a|);
      SumWithNothing(Count(a), CountUpTo(b, n));
    } else {
      CountsOfSuffix(a, b, all, n - 1, m - 1);
      assert all[m - 1] == b[n - 1];
      SumAssociates(Count(a), CountUpTo(b, n - 1), CountOne(b[n - 1]));
    }
  }

  lemma KeysConcat(a: seq<ItemEntry>, b: seq<ItemEntry>, all: seq<ItemEntry>)
    requires all == a + b
    ensures IssueKeys(all) == IssueKeys(a) + IssueKeys(b)
  {
    KeysOfSuffix(a, b, all, |b|);
  }

  lemma CountsConcat(a: seq<ItemEntry>, b: seq<ItemEntry>, all: seq<ItemEntry>)
    requires all == a + b
    ensures Count(all) == Sum(Count(a), Count(b))
  {
    CountsOfSuffix(a, b, all, |b|, |all|);
  }

  /** What the four places of a tally say, counted. */
  datatype Ledger = Ledger(
    captured: nat,
    errors: nat,
    jobErrorRows: nat,
    ticksProcessed: nat,
    ticksFailed: nat,
    okIssues: nat,
    failedIssues: nat,
    okAttachments: nat,
    failedAttachments: nat)

  const BLANK: Ledger := Ledger(0, 0, 0, 0, 0, 0, 0, 0, 0)

  function LedgerOf(t: Tally): Ledger {
    var c := Count(t.items);
    Ledger(t.captured, t.errors, |t.jobErrors|, t.processed, t.failed,
           c.okIssues, c.failedIssues, c.okAttachments, c.failedAttachments)
  }

  function Add(a: Ledger, b: Ledger): Ledger {
    Ledger(a.captured + b.captured, a.errors + b.errors, a.jobErrorRows + b.jobErrorRows,
           a.ticksProcessed + b.ticksProcessed, a.ticksFailed + b.ticksFailed,
           a.okIssues + b.okIssues, a.failedIssues + b.failedIssues,
           a.okAttachments + b.okAttachments, a.failedAttachments + b.failedAttachments)
  }

  lemma LedgerPlus(a: Tally, b: Tally, la: Ledger, lb: Ledger, sum: Tally)
    requires sum == Plus(a, b) && LedgerOf(a) == la && LedgerOf(b) == lb
    ensures LedgerOf(sum) == Add(la, lb)
  {
    CountsConcat(a.items, b.items, sum.items);
  }

  lemma LedgerOfThree(a: Tally, b: Tally, c: Tally, la: Ledger, lb: Ledger, lc: Ledger, sum: Tally)
    requires LedgerOf(a) == la && LedgerOf(b) == lb && LedgerOf(c) == lc && sum == Plus(Plus(a, b), c)
    ensures LedgerOf(sum) == Add(Add(la, lb), lc)
  {
    LedgerPlus(a, b, la, lb, Plus(a, b));
    LedgerPlus(Plus(a, b), c, Add(la, lb), lc, sum);
  }

  lemma SingleItem(item: ItemEntry, one: seq<ItemEntry>)
    requires one == [item]
    ensures IssueKeys(one) == if IsIssueLevel(item) then [item.objectId.key] else []
    ensures Count(one) == CountOne(item)
  {
    assert CountUpTo(one, 0) == Counts(0, 0, 0, 0) && IssueKeysUpTo(one, 0) == [];
  }

  function Downloads(attachments: seq<Attachment>, ok: bool): nat {
    if attachments == [] then 0
    else
      var last := attachments[|attachments| - 1];
      Downloads(attachments[..|attachments| - 1], ok)
      + if last.Attachment? && last.download.Succeeds? == ok then 1 else 0
  }

  function TickLedger(): Ledger {
    Ledger(0, 0, 0, 1, 0, 0, 0, 0, 0)
  }

  function DownloadLedger(outcome: Attempt): Ledger {
    if outcome.Succeeds? then Ledger(0, 0, 0, 0, 0, 0, 0, 1, 0) else Ledger(0, 1, 1, 0, 1, 0, 0, 0, 1)
  }

  function AttachmentLedger(attachment: Attachment): Ledger {
    match attachment
    case NullReference => BLANK
    case Attachment(_, download) => Add(DownloadLedger(download), TickLedger())
  }

  lemma LedgerOfTick(tick: Tally, captured: Tally)
    requires tick == ATTACHMENT_TICK && captured == CAPTURED
    ensures LedgerOf(tick) == TickLedger() && LedgerOf(captured) == CapturedLedger()
  {
  }

  lemma LedgerOfDownload(ids: Ids, key: string, id: string, outcome: Attempt, effect: Tally)
    requires effect == DownloadEffect(ids, key, id, outcome)
    ensures LedgerOf(effect) == DownloadLedger(outcome)
  {
    SingleItem(AttachmentEntry(ids, key, id, outcome), effect.items);
  }

  lemma LedgerOfAttachment(ids: Ids, key: string, attachment: Attachment, effect: Tally)
    requires effect == AttachmentEffect(ids, key, attachment)
    ensures LedgerOf(effect) == AttachmentLedger(attachment)
  {
    if attachment.Attachment? {
      var download := DownloadEffect(ids, key, attachment.id, attachment.download);
      LedgerOfDownload(ids, key, attachment.id, attachment.download, download);
      LedgerOfTick(ATTACHMENT_TICK, CAPTURED);
      LedgerPlus(download, ATTACHMENT_TICK, DownloadLedger(attachment.download), TickLedger(), effect);
    }
  }

  function AttachmentsLedgerFrom(o: nat, d: nat): Ledger {
    Ledger(0, d, d, o + d, d, 0, 0, o, d)
  }

  function AttachmentsLedger(attachments: seq<Attachment>): Ledger {
    AttachmentsLedgerFrom(Downloads(attachments, true), Downloads(attachments, false))
  }

  lemma OneMoreDownload(attachments: seq<Attachment>, attachment: Attachment)
    ensures AttachmentsLedger(attachments + [attachment])
            == Add(AttachmentsLedger(attachments), AttachmentLedger(attachment))
  {
    assert (attachments + [attachment])[..|attachments|] == attachments;
  }

  lemma LedgerOfNext(ids: Ids, key: string, handled: seq<Attachment>, next: Attachment, before: Tally, effect: Tally)
    requires LedgerOf(before) == AttachmentsLedger(handled)
    requires effect == Plus(before, AttachmentEffect(ids, key, next))
    ensures LedgerOf(effect) == AttachmentsLedger(handled + [next])
  {
    var last := AttachmentEffect(ids, key, next);
    LedgerOfAttachment(ids, key, next, last);
    LedgerPlus(before, last, AttachmentsLedger(handled), AttachmentLedger(next), effect);
    OneMoreDownload(handled, next);
  }

  lemma NothingIsBlank(nothing: Tally)
    requires nothing == NOTHING
    ensures LedgerOf(nothing) == BLANK
  {
  }

  lemma {:induction false} LedgerOfAttachments(ids: Ids, key: string, attachments: seq<Attachment>, effect: Tally)
    requires effect == AttachmentsEffect(ids, key, attachments)
    ensures LedgerOf(effect) == AttachmentsLedger(attachments)
  {
    if attachments == [] {
      NothingIsBlank(effect);
    } else {
      var n := |attachments| - 1;
      var before := AttachmentsEffect(ids, key, attachments[..n]);
      LedgerOfAttachments(ids, key, attachments[..n], before);
      assert attachments[..n] + [attachments[n]] == attachments;
      LedgerOfNext(ids, key, attachments[..n], attachments[n], before, effect);
    }
  }

  function CapturedLedger(): Ledger {
    Ledger(1, 0, 0, 1, 0, 0, 0, 0, 0)
  }

  /** What the end of an issue leaves, ok or failed, with or without rows. */
  function EndLedger(ok: bool, recorded: bool): Ledger {
    match (ok, recorded)
    case (true, true) => Ledger(0, 0, 0, 0, 0, 1, 0, 0, 0)
    case (true, false) => BLANK
    case (false, true) => Ledger(0, 1, 1, 0, 1, 0, 1, 0, 0)
    case (false, false) => Ledger(0, 1, 0, 0, 1, 0, 0, 0, 0)
  }

  /**
   An issue whose key is a text leaves exactly one issue-level entry. It is an error entry unless the issue was
   captured and its attachment loop did not throw.
   */
  function IssueLedger(issue: Issue): Ledger {
    if Preparation(issue).Fails? then EndLedger(false, issue.binding.AsText?)
    else Add(Add(CapturedLedger(), AttachmentsLedger(BeforeNull(issue.attachments))),
             EndLedger(NoNull(issue.attachments), issue.binding.AsText?))
  }

  function OwnKey(issue: Issue): seq<string> {
    if issue.binding.AsText? then [issue.key] else []
  }

  lemma NoItem(none: seq<ItemEntry>)
    requires none == []
    ensures IssueKeys(none) == [] && Count(none) == Counts(0, 0, 0, 0)
  {
  }

  lemma LedgerOfFailure(ids: Ids, issue: Issue, message: string, effect: Tally)
    requires effect == IssueFailure(ids, issue, message)
    ensures LedgerOf(effect) == EndLedger(false, issue.binding.AsText?) && IssueKeys(effect.items) == OwnKey(issue)
  {
    if issue.binding.AsText? {
      SingleItem(IssueEntry(ids, issue.key, Fails(message)), effect.items);
    } else {
      NoItem(effect.items);
    }
  }

  lemma LedgerOfEnd(ids: Ids, issue: Issue, effect: Tally)
    requires effect == IssueEnd(ids, issue)
    ensures LedgerOf(effect) == EndLedger(NoNull(issue.attachments), issue.binding.AsText?)
    ensures IssueKeys(effect.items) == OwnKey(issue)
  {
    if !NoNull(issue.attachments) {
      LedgerOfFailure(ids, issue, NULL_MESSAGE, effect);
    } else if issue.binding.AsText? {
      SingleItem(IssueEntry(ids, issue.key, Succeeds), effect.items);
    } else {
      NoItem(effect.items);
    }
  }

  lemma LedgerOfIssue(ids: Ids, issue: Issue, effect: Tally)
    requires effect == IssueEffect(ids, issue)
    ensures LedgerOf(effect) == IssueLedger(issue)
  {
    var preparation := Preparation(issue);
    if preparation.Fails? {
      LedgerOfFailure(ids, issue, preparation.message, effect);
    } else {
      var attachments := BeforeNull(issue.attachments);
      var atts, end := AttachmentsEffect(ids, issue.key, attachments), IssueEnd(ids, issue);
      LedgerOfTick(ATTACHMENT_TICK, CAPTURED);
      LedgerOfAttachments(ids, issue.key, attachments, atts);
      LedgerOfEnd(ids, issue, end);
      LedgerOfThree(CAPTURED, atts, end, CapturedLedger(), AttachmentsLedger(attachments),
                    EndLedger(NoNull(issue.attachments), issue.binding.AsText?), effect);
    }
  }

  /** How many of the issues have the property. */
  function HowMany(issues: seq<Issue>, p: Issue -> bool): (n: nat)
    ensures n <= |issues|
  {
    if issues == [] then 0
    else HowMany(issues[..|issues| - 1], p) + if p(issues[|issues| - 1]) then 1 else 0
  }

  /** The fields could be read, comments, watchers and worklogs fetched, and the payload written. */
  predicate IsPrepared(issue: Issue) {
    issue.readFields.Succeeds? && issue.fetchSupplements.Succeeds? && issue.writePayload.Succeeds?
  }

  predicate ListsNull(issue: Issue) {
    NullReference in issue.attachments
  }

  predicate FailedLate(issue: Issue) {
    IsPrepared(issue) && ListsNull(issue)
  }

  /** The message of the first of the three that failed, or else of the null. */
  function FailureMessage(issue: Issue): Option<string> {
    if issue.readFields.Fails? then Some(issue.readFields.message)
    else if issue.fetchSupplements.Fails? then Some(issue.fetchSupplements.message)
    else if issue.writePayload.Fails? then Some(issue.writePayload.message)
    else if ListsNull(issue) then Some("null")
    else None
  }

  lemma WhatFails(issue: Issue)
    ensures Preparation(issue).Succeeds? <==> IsPrepared(issue)
    ensures IssueFails(issue) <==> !IsPrepared(issue) || ListsNull(issue)
    ensures FailsAfterCapture(issue) <==> FailedLate(issue)
    ensures FailureMessage(issue).Some? <==> IssueFails(issue)
    ensures !IsPrepared(issue) ==> Preparation(issue) == Fails(FailureMessage(issue).value)
  {
  }

  predicate HasKey(issue: Issue) {
    issue.binding.AsText?
  }

  /** The issue has an ok entry. */
  predicate IsSound(issue: Issue) {
    IsPrepared(issue) && !ListsNull(issue) && HasKey(issue)
  }

  predicate IsMissed(issue: Issue) {
    !IsSound(issue)
  }

  /** The issue has an error entry. */
  predicate IsFailed(issue: Issue) {
    (!IsPrepared(issue) || ListsNull(issue)) && HasKey(issue)
  }

  /** The issue failed, and for want of a key no row says so. */
  predicate FailsUnrecorded(issue: Issue) {
    (!IsPrepared(issue) || ListsNull(issue)) && !HasKey(issue)
  }

  /** The downloads that ended so, of the attachments that were reached. */
  function DownloadsOf(issue: Issue, ok: bool): nat {
    if IsPrepared(issue) then Downloads(BeforeNull(issue.attachments), ok) else 0
  }

  function AllDownloads(issues: seq<Issue>, ok: bool): nat {
    if issues == [] then 0 else AllDownloads(issues[..|issues| - 1], ok) + DownloadsOf(issues[|issues| - 1], ok)
  }

  /** What so many captured, sound, failed and unrecorded issues and stored and failed downloads amount to. */
  function LedgerFrom(c: nat, s: nat, f: nat, u: nat, o: nat, d: nat): Ledger {
    Ledger(c, f + u + d, f + d, c + o + d, f + u + d, s, f, o, d)
  }

  function IssuesLedger(issues: seq<Issue>): Ledger {
    LedgerFrom(HowMany(issues, IsPrepared), HowMany(issues, IsSound), HowMany(issues, IsFailed),
               HowMany(issues, FailsUnrecorded), AllDownloads(issues, true), AllDownloads(issues, false))
  }

  function One(b: bool): nat {
    if b then 1 else 0
  }

  lemma PreparedSum(o: nat, d: nat, ok: bool, recorded: bool, atts: Ledger, end: Ledger)
    requires atts == AttachmentsLedgerFrom(o, d) && end == EndLedger(ok, recorded)
    ensures Add(Add(CapturedLedger(), atts), end)
            == LedgerFrom(1, One(ok && recorded), One(!ok && recorded), One(!ok && !recorded), o, d)
  {
  }

  lemma IssueLedgerIs(issue: Issue, ledger: Ledger, c: nat, s: nat, f: nat, u: nat, o: nat, d: nat)
    requires ledger == IssueLedger(issue)
    requires c == One(IsPrepared(issue)) && s == One(IsSound(issue))
    requires f == One(IsFailed(issue)) && u == One(FailsUnrecorded(issue))
    requires o == DownloadsOf(issue, true) && d == DownloadsOf(issue, false)
    ensures ledger == LedgerFrom(c, s, f, u, o, d)
  {
    WhatFails(issue);
    if IsPrepared(issue) {
      var attachments := BeforeNull(issue.attachments);
      var ok, recorded := NoNull(issue.attachments), issue.binding.AsText?;
      PreparedSum(o, d, ok, recorded, AttachmentsLedger(attachments), EndLedger(ok, recorded));
    }
  }

  lemma OneMore(issues: seq<Issue>, issue: Issue, all: seq<Issue>, p: Issue -> bool)
    requires all == issues + [issue]
    ensures HowMany(all, p) == HowMany(issues, p) + One(p(issue))
  {
    assert all[..|issues|] == issues;
  }

  lemma DownloadsOfOneMore(issues: seq<Issue>, issue: Issue, all: seq<Issue>, ok: bool)
    requires all == issues + [issue]
    ensures AllDownloads(all, ok) == AllDownloads(issues, ok) + DownloadsOf(issue, ok)
  {
    assert all[..|issues|] == issues;
  }

  lemma LedgersFromAdd(c: nat, s: nat, f: nat, u: nat, o: nat, d: nat,
                       c': nat, s': nat, f': nat, u': nat, o': nat, d': nat)
    ensures LedgerFrom(c + c', s + s', f + f', u + u', o + o', d + d')
            == Add(LedgerFrom(c, s, f, u, o, d), LedgerFrom(c', s', f', u', o', d'))
  {
  }

  lemma OneMoreIssue(issues: seq<Issue>, issue: Issue, all: seq<Issue>, last: Ledger)
    requires all == issues + [issue] && last == IssueLedger(issue)
    ensures IssuesLedger(all) == Add(IssuesLedger(issues), last)
  {
    var c, s, f, u := One(IsPrepared(issue)), One(IsSound(issue)), One(IsFailed(issue)), One(FailsUnrecorded(issue));
    var o, d := DownloadsOf(issue, true), DownloadsOf(issue, false);
    OneMore(issues, issue, all, IsPrepared);
    OneMore(issues, issue, all, IsSound);
    OneMore(issues, issue, all, IsFailed);
    OneMore(issues, issue, all, FailsUnrecorded);
    DownloadsOfOneMore(issues, issue, all, true);
    DownloadsOfOneMore(issues, issue, all, false);
    IssueLedgerIs(issue, last, c, s, f, u, o, d);
    LedgersAdd(issues, all, last, c, s, f, u, o, d);
  }

  lemma LedgersAdd(issues: seq<Issue>, all: seq<Issue>, last: Ledger, c: nat, s: nat, f: nat, u: nat, o: nat, d: nat)
    requires HowMany(all, IsPrepared) == HowMany(issues, IsPrepared) + c
    requires HowMany(all, IsSound) == HowMany(issues, IsSound) + s
    requires HowMany(all, IsFailed) == HowMany(issues, IsFailed) + f
    requires HowMany(all, FailsUnrecorded) == HowMany(issues, FailsUnrecorded) + u
    requires AllDownloads(all, true) == AllDownloads(issues, true) + o
    requires AllDownloads(all, false) == AllDownloads(issues, false) + d
    requires last == LedgerFrom(c, s, f, u, o, d)
    ensures IssuesLedger(all) == Add(IssuesLedger(issues), last)
  {
    LedgersFromAdd(HowMany(issues, IsPrepared), HowMany(issues, IsSound), HowMany(issues, IsFailed),
                   HowMany(issues, FailsUnrecorded), AllDownloads(issues, true), AllDownloads(issues, false),
                   c, s, f, u, o, d);
  }

  lemma LedgerOfNextIssue(ids: Ids, done: seq<Issue>, next: Issue, before: Tally, effect: Tally)
    requires LedgerOf(before) == IssuesLedger(done)
    requires effect == Plus(before, IssueEffect(ids, next))
    ensures LedgerOf(effect) == IssuesLedger(done + [next])
  {
    var last := IssueEffect(ids, next);
    LedgerOfIssue(ids, next, last);
    LedgerPlus(before, last, IssuesLedger(done), IssueLedger(next), effect);
    OneMoreIssue(done, next, done + [next], IssueLedger(next));
  }

  /** The four places together say what the issues and their failures imply. */
  lemma {:induction false} LedgerOfIssues(ids: Ids, issues: seq<Issue>, effect: Tally)
    requires effect == Effect(ids, issues)
    ensures LedgerOf(effect) == IssuesLedger(issues)
  {
    if issues == [] {
      NothingIsBlank(effect);
    } else {
      var n := |issues| - 1;
      var before := Effect(ids, issues[..n]);
      LedgerOfIssues(ids, issues[..n], before);
      assert issues[..n] + [issues[n]] == issues;
      LedgerOfNextIssue(ids, issues[..n], issues[n], before, effect);
    }
  }

  // Where a run breaks off

  function LostLedger(): Ledger {
    Ledger(0, 1, 0, 0, 0, 0, 0, 0, 0)
  }

  /** The issue at which the run broke off had been counted as captured. */
  predicate CountedAtStop(stop: Stop) {
    stop.AtElement? && stop.element.Element? && IsPrepared(stop.element.issue)
  }

  /** The downloads of the issue at which the run broke off. */
  function DownloadsAtStop(stop: Stop, early: bool, ok: bool): nat {
    if CountedAtStop(stop) && !early then Downloads(BeforeNull(stop.element.issue.attachments), ok) else 0
  }

  function StopLedgerFrom(c: nat, o: nat, d: nat, lost: nat): Ledger {
    Ledger(c, d + lost, d, c + o + d, d, 0, 0, o, d)
  }

  function StopLedger(stop: Stop, early: bool): Ledger {
    StopLedgerFrom(One(CountedAtStop(stop)), DownloadsAtStop(stop, early, true), DownloadsAtStop(stop, early, false),
                   One(stop.AtElement?))
  }

  lemma StopSum(captured: Ledger, atts: Ledger, lost: Ledger, o: nat, d: nat)
    requires captured == CapturedLedger() && lost == LostLedger() && atts == AttachmentsLedgerFrom(o, d)
    ensures Add(Add(captured, atts), lost) == StopLedgerFrom(1, o, d, 1)
  {
  }

  lemma LedgerOfLost(lost: Tally)
    requires lost == LOST_ERROR
    ensures LedgerOf(lost) == LostLedger() && IssueKeys(lost.items) == []
  {
    NoItem(lost.items);
  }

  lemma LedgerOfLate(captured: Tally, atts: Tally, lost: Tally, o: nat, d: nat, effect: Tally)
    requires captured == CAPTURED && lost == LOST_ERROR && LedgerOf(atts) == AttachmentsLedgerFrom(o, d)
    requires effect == Plus(Plus(captured, atts), lost)
    ensures LedgerOf(effect) == StopLedgerFrom(1, o, d, 1)
  {
    LedgerOfTick(ATTACHMENT_TICK, captured);
    LedgerOfLost(lost);
    StopSum(CapturedLedger(), AttachmentsLedgerFrom(o, d), LostLedger(), o, d);
    LedgerOfThree(captured, atts, lost, CapturedLedger(), AttachmentsLedgerFrom(o, d), LostLedger(), effect);
  }

  lemma LedgerOfEarly(captured: Tally, nothing: Tally, lost: Tally, effect: Tally)
    requires captured == CAPTURED && nothing == NOTHING && lost == LOST_ERROR && effect == Plus(captured, lost)
    ensures LedgerOf(effect) == StopLedgerFrom(1, 0, 0, 1)
  {
    PlusAssociates(captured, nothing, nothing);
    NothingIsBlank(nothing);
    LedgerOfLate(captured, nothing, lost, 0, 0, effect);
  }

  lemma LedgerOfBreak(ids: Ids, issue: Issue, early: bool, effect: Tally, o: nat, d: nat)
    requires effect == BreakEffect(ids, issue, early) && IsPrepared(issue)
    requires o == (if early then 0 else Downloads(BeforeNull(issue.attachments), true))
    requires d == (if early then 0 else Downloads(BeforeNull(issue.attachments), false))
    ensures LedgerOf(effect) == StopLedgerFrom(1, o, d, 1)
  {
    if early {
      LedgerOfEarly(CAPTURED, NOTHING, LOST_ERROR, effect);
    } else {
      var attachments := BeforeNull(issue.attachments);
      var atts := AttachmentsEffect(ids, issue.key, attachments);
      LedgerOfAttachments(ids, issue.key, attachments, atts);
      LedgerOfLate(CAPTURED, atts, LOST_ERROR, o, d, effect);
    }
  }

  lemma StopWithoutCount(ids: Ids, stop: Stop, early: bool, effect: Tally)
    requires effect == StopEffect(ids, stop, early) && stop.AtElement? && !CountedAtStop(stop)
    ensures effect == LOST_ERROR
  {
    if stop.element.Element? {
      WhatFails(stop.element.issue);
    }
  }

  lemma LedgerOfStop(ids: Ids, stop: Stop, early: bool, effect: Tally)
    requires effect == StopEffect(ids, stop, early)
    ensures LedgerOf(effect) == StopLedger(stop, early)
  {
    if !stop.AtElement? {
      NothingIsBlank(effect);
    } else if !CountedAtStop(stop) {
      StopWithoutCount(ids, stop, early, effect);
      LedgerOfLost(effect);
    } else {
      LedgerOfBreak(ids, stop.element.issue, early, effect, DownloadsAtStop(stop, early, true),
                    DownloadsAtStop(stop, early, false));
    }
  }

  lemma LedgerOfWalk(ids: Ids, walk: Walk, early: bool, effect: Tally)
    requires effect == WalkEffect(ids, walk, early)
    ensures LedgerOf(effect) == Add(IssuesLedger(walk.found), StopLedger(walk.stop, early))
  {
    var issues, stop := Effect(ids, walk.found), StopEffect(ids, walk.stop, early);
    LedgerOfIssues(ids, walk.found, issues);
    LedgerOfStop(ids, walk.stop, early, stop);
    LedgerPlus(issues, stop, IssuesLedger(walk.found), StopLedger(walk.stop, early), effect);
  }

  // The issue-level entries

  lemma {:induction false} AttachmentsLeaveNoKey(ids: Ids, key: string, attachments: seq<Attachment>,
                                                 items: seq<ItemEntry>)
    requires items == AttachmentsEffect(ids, key, attachments).items
    ensures IssueKeys(items) == []
  {
    if attachments != [] {
      var n := |attachments| - 1;
      var before, last := AttachmentsEffect(ids, key, attachments[..n]), AttachmentEffect(ids, key, attachments[n]);
      AttachmentsLeaveNoKey(ids, key, attachments[..n], before.items);
      AttachmentLeavesNoKey(ids, key, attachments[n], last.items);
      KeysConcat(before.items, last.items, items);
    }
  }

  lemma AttachmentLeavesNoKey(ids: Ids, key: string, attachment: Attachment, items: seq<ItemEntry>)
    requires items == AttachmentEffect(ids, key, attachment).items
    ensures IssueKeys(items) == []
  {
    if attachment.Attachment? {
      var entry := AttachmentEntry(ids, key, attachment.id, attachment.download);
      assert items == [entry];
      SingleItem(entry, items);
    }
  }

  lemma KeysOfThree(captured: Tally, atts: Tally, end: Tally, keys: seq<string>, items: seq<ItemEntry>)
    requires captured.items == [] && IssueKeys(atts.items) == [] && IssueKeys(end.items) == keys
    requires items == Plus(Plus(captured, atts), end).items
    ensures IssueKeys(items) == keys
  {
    assert captured.items + atts.items == atts.items;
    KeysConcat(atts.items, end.items, items);
  }

  lemma IssueLeavesItsKey(ids: Ids, issue: Issue, items: seq<ItemEntry>)
    requires items == IssueEffect(ids, issue).items
    ensures IssueKeys(items) == OwnKey(issue)
  {
    var preparation := Preparation(issue);
    if preparation.Fails? {
      LedgerOfFailure(ids, issue, preparation.message, IssueEffect(ids, issue));
    } else {
      var attachments := BeforeNull(issue.attachments);
      var atts, end := AttachmentsEffect(ids, issue.key, attachments), IssueEnd(ids, issue);
      AttachmentsLeaveNoKey(ids, issue.key, attachments, atts.items);
      LedgerOfEnd(ids, issue, end);
      KeysOfThree(CAPTURED, atts, end, OwnKey(issue), items);
    }
  }

  function Keys(issues: seq<Issue>): seq<string> {
    if issues == [] then [] else Keys(issues[..|issues| - 1]) + OwnKey(issues[|issues| - 1])
  }

  lemma {:induction false} IssuesLeaveTheirKeys(ids: Ids, issues: seq<Issue>, items: seq<ItemEntry>)
    requires items == Effect(ids, issues).items
    ensures IssueKeys(items) == Keys(issues)
  {
    if issues != [] {
      var n := |issues| - 1;
      var before, last := Effect(ids, issues[..n]).items, IssueEffect(ids, issues[n]).items;
      IssuesLeaveTheirKeys(ids, issues[..n], before);
      IssueLeavesItsKey(ids, issues[n], last);
      KeysConcat(before, last, items);
    }
  }

  lemma StopLeavesNoKey(ids: Ids, stop: Stop, early: bool, items: seq<ItemEntry>)
    requires items == StopEffect(ids, stop, early).items
    ensures IssueKeys(items) == []
  {
    LedgerOfLost(LOST_ERROR);
    NoItem(NOTHING.items);
    if stop.AtElement? && stop.element.Element? {
      var issue := stop.element.issue;
      var attachments := BeforeNull(issue.attachments);
      var atts := AttachmentsEffect(ids, issue.key, attachments);
      AttachmentsLeaveNoKey(ids, issue.key, attachments, atts.items);
      BreakItems(ids, issue, early, atts, items);
    }
  }

  lemma BreakItems(ids: Ids, issue: Issue, early: bool, atts: Tally, items: seq<ItemEntry>)
    requires atts == AttachmentsEffect(ids, issue.key, BeforeNull(issue.attachments))
    requires items == BreakEffect(ids, issue, early).items
    ensures items == if Preparation(issue).Succeeds? && !early then atts.items else []
  {
    assert [] + atts.items + [] == atts.items;
  }

  lemma {:induction false} IssuesPartition(issues: seq<Issue>)
    ensures HowMany(issues, IsPrepared) + HowMany(issues, IsFailed) + HowMany(issues, FailsUnrecorded)
            == |issues| + HowMany(issues, FailedLate)
    ensures HowMany(issues, IsSound) + HowMany(issues, IsFailed) == HowMany(issues, HasKey)
    ensures HowMany(issues, IsSound) + HowMany(issues, IsMissed) == |issues|
  {
    if issues != [] {
      IssuesPartition(issues[..|issues| - 1]);
    }
  }

  /**
   Conservation, for every pattern of failures and wherever the run breaks off: each issue with a key that was gone
   through has exactly one issue-level entry, in order of discovery; captured issues plus failed ones equal the
   issues plus those that failed after being counted; and the counts of errors differ by the failures without a key,
   of which there is no row, and by the one error that a breaking run leaves in its totals alone.
   */
  lemma EveryIssueIsAccountedFor(ids: Ids, walk: Walk, early: bool)
    ensures var l := LedgerOf(WalkEffect(ids, walk, early));
            var unrecorded := HowMany(walk.found, FailsUnrecorded);
            && l.okIssues + l.failedIssues == HowMany(walk.found, HasKey)
            && l.captured + l.failedIssues + unrecorded
               == |walk.found| + HowMany(walk.found, FailedLate) + One(CountedAtStop(walk.stop))
            && l.jobErrorRows == l.failedIssues + l.failedAttachments
            && l.ticksFailed == l.jobErrorRows + unrecorded
            && l.errors == l.ticksFailed + One(walk.stop.AtElement?)
            && l.ticksProcessed == l.captured + l.okAttachments + l.failedAttachments
    ensures IssueKeys(WalkEffect(ids, walk, early).items) == Keys(walk.found)
  {
    var issues, stop := Effect(ids, walk.found).items, StopEffect(ids, walk.stop, early).items;
    IssuesLeaveTheirKeys(ids, walk.found, issues);
    StopLeavesNoKey(ids, walk.stop, early, stop);
    KeysConcat(issues, stop, WalkEffect(ids, walk, early).items);
    LedgerOfWalk(ids, walk, early, WalkEffect(ids, walk, early));
    IssuesPartition(walk.found);
    var o, d := AllDownloads(walk.found, true), AllDownloads(walk.found, false);
    WalkSum(HowMany(walk.found, IsPrepared), HowMany(walk.found, IsSound), HowMany(walk.found, IsFailed),
            HowMany(walk.found, FailsUnrecorded), o, d, One(CountedAtStop(walk.stop)),
            DownloadsAtStop(walk.stop, early, true), DownloadsAtStop(walk.stop, early, false),
            One(walk.stop.AtElement?), LedgerOf(WalkEffect(ids, walk, early)));
  }

  lemma WalkSum(c: nat, s: nat, f: nat, u: nat, o: nat, d: nat, c': nat, o': nat, d': nat, lost: nat, l: Ledger)
    requires l == Add(LedgerFrom(c, s, f, u, o, d), StopLedgerFrom(c', o', d', lost))
    ensures l.okIssues == s && l.failedIssues == f && l.captured == c + c'
    ensures l.okAttachments == o + o' && l.failedAttachments == d + d'
    ensures l.jobErrorRows == f + d + d' && l.ticksFailed == f + u + d + d' && l.errors == l.ticksFailed + lost
    ensures l.ticksProcessed == l.captured + l.okAttachments + l.failedAttachments
  {
  }

  lemma {:induction false} NoneHas(issues: seq<Issue>, p: Issue -> bool)
    ensures HowMany(issues, p) == 0 <==> forall i :: 0 <= i < |issues| ==> !p(issues[i])
  {
    if issues != [] {
      var n := |issues| - 1;
      NoneHas(issues[..n], p);
      assert forall i :: 0 <= i < n ==> issues[..n][i] == issues[i];
    }
  }

  /** The run goes through an issue only if it does not break there. */
  lemma {:induction false} ListingGoesThrough(elements: seq<Element>, wired: bool, i: nat)
    requires i < |WalkListing(elements, wired).found|
    ensures !BreaksOff(WalkListing(elements, wired).found[i], wired)
  {
    if elements != [] && !Breaks(elements[0], wired) && i > 0 {
      ListingGoesThrough(elements[1..], wired, i - 1);
    }
  }

  lemma {:induction false} RunGoesThrough(projects: seq<Project>, wired: bool, i: nat)
    requires i < |WalkProjects(projects, wired).found|
    ensures !BreaksOff(WalkProjects(projects, wired).found[i], wired)
  {
    if projects != [] {
      var first := WalkProject(projects[0], wired);
      if i < |first.found| {
        ListingGoesThrough(projects[0].elements, wired, i);
      } else {
        RunGoesThrough(projects[1..], wired, i - |first.found|);
      }
    }
  }

  /** Where error rows are kept, a run does not get past a failure without a key. */
  lemma WiredRunsRecordFailures(projects: seq<Project>, i: nat)
    requires i < |WalkProjects(projects, true).found|
    ensures !FailsUnrecorded(WalkProjects(projects, true).found[i])
  {
    RunGoesThrough(projects, true, i);
    WhatFails(WalkProjects(projects, true).found[i]);
  }

  lemma AgreementIs(l: Ledger, unrecorded: nat, lost: bool)
    requires l.jobErrorRows == l.failedIssues + l.failedAttachments && l.ticksFailed == l.jobErrorRows + unrecorded
    requires l.errors == l.ticksFailed + One(lost)
    ensures l.errors == l.failedIssues + l.failedAttachments == l.ticksFailed == l.jobErrorRows
            <==> !lost && unrecorded == 0
  {
  }

  /**
   The totals of a run, the manifest entries, the failed ticks and, where they are kept, the error rows count the same
   errors exactly when the run did not break off at an element of a listing and no issue failed without a key. With
   error rows such an issue breaks the run off, so that the first condition alone decides.
   */
  lemma CountsAgreeExactly(ids: Ids, projects: seq<Project>, wired: bool, early: bool)
    ensures var walk := WalkProjects(projects, wired);
            var l := LedgerOf(WalkEffect(ids, walk, early));
            && (l.errors == l.failedIssues + l.failedAttachments == l.ticksFailed == l.jobErrorRows
                <==> !walk.stop.AtElement? && forall i :: 0 <= i < |walk.found| ==> !FailsUnrecorded(walk.found[i]))
            && (wired ==> forall i :: 0 <= i < |walk.found| ==> !FailsUnrecorded(walk.found[i]))
  {
    var walk := WalkProjects(projects, wired);
    EveryIssueIsAccountedFor(ids, walk, early);
    AgreementIs(LedgerOf(WalkEffect(ids, walk, early)), HowMany(walk.found, FailsUnrecorded), walk.stop.AtElement?);
    NoneHas(walk.found, FailsUnrecorded);
    if wired {
      forall i | 0 <= i < |walk.found|
        ensures !FailsUnrecorded(walk.found[i])
      {
        WiredRunsRecordFailures(projects, i);
      }
    }
  }

  lemma OnlyANull(projects: seq<Project>, wired: bool, walk: Walk)
    requires projects == [Listed([NullElement])] && walk == WalkProjects(projects, wired)
    ensures walk == Walk([], AtElement(NullElement))
  {
    var elements := projects[0].elements;
    assert elements == [NullElement];
    assert WalkListing(elements, wired) == Walk([], AtElement(NullElement));
  }

  lemma LostAlone(nothing: Tally, lost: Tally, effect: Tally)
    requires nothing == NOTHING && lost == LOST_ERROR && effect == Plus(nothing, lost)
    ensures LedgerOf(effect) == LostLedger()
  {
    PlusAssociates(lost, NOTHING, NOTHING);
    LedgerOfLost(lost);
  }

  lemma StoppedAtOnce(ids: Ids, walk: Walk, early: bool, effect: Tally)
    requires walk == Walk([], AtElement(NullElement)) && effect == WalkEffect(ids, walk, early)
    ensures LedgerOf(effect) == LostLedger()
  {
    LostAlone(Effect(ids, walk.found), StopEffect(ids, walk.stop, early), effect);
  }

  /** What a run gets past: an issue with a text for a key, or without one as long as no error row is refused. */
  predicate GoesThrough(element: Element, wired: bool) {
    && element.Element?
    && var issue := element.issue;
       issue.binding.AsText?
       || (issue.binding.AsNull? && (!wired || (IsPrepared(issue) && !ListsNull(issue))))
  }

  /** A run completes exactly when every listing succeeds and it gets past every element. */
  lemma CompletesExactly(projects: seq<Project>, wired: bool)
    ensures NothingBreaks(projects, wired)
            <==> forall i :: 0 <= i < |projects| ==>
                   && projects[i].Listed?
                   && forall k :: 0 <= k < |projects[i].elements| ==> GoesThrough(projects[i].elements[k], wired)
  {
    forall i, k | 0 <= i < |projects| && projects[i].Listed? && 0 <= k < |projects[i].elements|
      ensures Breaks(projects[i].elements[k], wired) <==> !GoesThrough(projects[i].elements[k], wired)
    {
      if projects[i].elements[k].Element? {
        WhatFails(projects[i].elements[k].issue);
      }
    }
  }

  /** A listing that succeeds with a null ends the run, with an error that nothing but its totals know of. */
  lemma NullIssueEndsTheRun(ids: Ids, projects: seq<Project>, wired: bool, early: bool)
    requires projects == [Listed([NullElement])]
    ensures !NothingBreaks(projects, wired)
    ensures var l := LedgerOf(WalkEffect(ids, WalkProjects(projects, wired), early));
            l.errors == 1 && l.failedIssues == l.jobErrorRows == l.ticksFailed == 0
  {
    var walk := WalkProjects(projects, wired);
    assert Breaks(projects[0].elements[0], wired);
    OnlyANull(projects, wired, walk);
    StoppedAtOnce(ids, walk, early, WalkEffect(ids, walk, early));
  }

  /** So does one issue without a key that fails, exactly when error rows are kept. */
  lemma KeylessFailureEndsTheRunExactly(issue: Issue, projects: seq<Project>, wired: bool)
    requires issue.binding.AsNull? && (!IsPrepared(issue) || ListsNull(issue)) && projects == [Listed([Element(issue)])]
    ensures NothingBreaks(projects, wired) <==> !wired
  {
    assert Breaks(projects[0].elements[0], wired) <==> wired;
  }

  /**
   Captured issues and errors other than those of attachments add up to the issues of a run that does not break off
   exactly when no captured issue lists a null.
   */
  lemma CapturedPlusErrorsExactly(ids: Ids, issues: seq<Issue>)
    ensures var l := LedgerOf(WalkEffect(ids, Walk(issues, Nowhere), false));
            l.captured + (l.errors - l.failedAttachments) == |issues|
            <==> forall i :: 0 <= i < |issues| && IsPrepared(issues[i]) ==> !ListsNull(issues[i])
  {
    EveryIssueIsAccountedFor(ids, Walk(issues, Nowhere), false);
    NoneHas(issues, FailedLate);
    assert forall i :: 0 <= i < |issues| ==>
             (FailedLate(issues[i]) <==> IsPrepared(issues[i]) && ListsNull(issues[i]));
  }

  lemma {:induction false} CapturedUnlessAllFail(issues: seq<Issue>)
    ensures HowMany(issues, IsPrepared) == 0 ==>
              && HowMany(issues, IsFailed) + HowMany(issues, FailsUnrecorded) == |issues|
              && AllDownloads(issues, true) == AllDownloads(issues, false) == 0
  {
    if issues != [] {
      CapturedUnlessAllFail(issues[..|issues| - 1]);
    }
  }

  lemma SomeAreCaptured(issues: seq<Issue>)
    ensures HowMany(issues, IsPrepared) > 0 <==> exists i :: 0 <= i < |issues| && IsPrepared(issues[i])
  {
    NoneHas(issues, IsPrepared);
  }

  /**
   The status a completed run returns and the one its emitter stores agree exactly when run and emitter agreed about
   the errors before, and besides something was captured or nothing had failed and there was no issue.
   */
  lemma ReportedStatusesAgreeExactly(ids: Ids, issues: seq<Issue>, base: Tally)
    ensures var t := Plus(base, Effect(ids, issues));
            FinalDisplay(t.processed, t.failed) == JobStatusOf(t.errors)
            <==> && base.errors == base.failed
                 && (|| base.processed > 0
                     || (exists i :: 0 <= i < |issues| && IsPrepared(issues[i]))
                     || (base.failed == 0 && issues == []))
  {
    LedgerOfIssues(ids, issues, Effect(ids, issues));
    CapturedUnlessAllFail(issues);
    SomeAreCaptured(issues);
  }

  // The omission check at the end of a backup

  predicate AllOfBackup(items: seq<ItemEntry>, id: string) {
    forall i :: 0 <= i < |items| ==> items[i].backupPointId == id && items[i].objectType == JiraIssue
  }

  lemma {:induction false} OkItemsUpTo(items: seq<ItemEntry>, id: string, n: nat)
    requires AllOfBackup(items, id) && n <= |items|
    ensures CountItems(items[..n], id, JiraIssue, true)
            == CountUpTo(items, n).okIssues + CountUpTo(items, n).okAttachments
  {
    if n > 0 {
      OkItemsUpTo(items, id, n - 1);
      assert items[..n][..n - 1] == items[..n - 1];
    }
  }

  lemma OkItemsOfOneBackup(items: seq<ItemEntry>, id: string)
    requires AllOfBackup(items, id)
    ensures CountItems(items, id, JiraIssue, true) == Count(items).okIssues + Count(items).okAttachments
  {
    OkItemsUpTo(items, id, |items|);
    assert items[..|items|] == items;
  }

  lemma {:induction false} AttachmentItemsAreOfBackup(ids: Ids, key: string, attachments: seq<Attachment>)
    ensures AllOfBackup(AttachmentsEffect(ids, key, attachments).items, ids.backupPointId)
  {
    if attachments != [] {
      AttachmentItemsAreOfBackup(ids, key, attachments[..|attachments| - 1]);
    }
  }

  lemma BothOfBackup(a: Tally, b: Tally, id: string)
    requires AllOfBackup(a.items, id) && AllOfBackup(b.items, id)
    ensures AllOfBackup(Plus(a, b).items, id)
  {
  }

  lemma IssueItemsAreOfBackup(ids: Ids, issue: Issue)
    ensures AllOfBackup(IssueEffect(ids, issue).items, ids.backupPointId)
  {
    if Preparation(issue).Succeeds? {
      var atts := AttachmentsEffect(ids, issue.key, BeforeNull(issue.attachments));
      AttachmentItemsAreOfBackup(ids, issue.key, BeforeNull(issue.attachments));
      BothOfBackup(CAPTURED, atts, ids.backupPointId);
      BothOfBackup(Plus(CAPTURED, atts), IssueEnd(ids, issue), ids.backupPointId);
    }
  }

  lemma {:induction false} ItemsAreOfBackup(ids: Ids, issues: seq<Issue>)
    ensures AllOfBackup(Effect(ids, issues).items, ids.backupPointId)
  {
    if issues != [] {
      var n := |issues| - 1;
      ItemsAreOfBackup(ids, issues[..n]);
      IssueItemsAreOfBackup(ids, issues[n]);
    }
  }

  lemma WalkItemsAreOfBackup(ids: Ids, walk: Walk, early: bool)
    ensures AllOfBackup(WalkEffect(ids, walk, early).items, ids.backupPointId)
  {
    ItemsAreOfBackup(ids, walk.found);
    if walk.stop.AtElement? && walk.stop.element.Element? {
      var issue := walk.stop.element.issue;
      var atts := AttachmentsEffect(ids, issue.key, BeforeNull(issue.attachments));
      AttachmentItemsAreOfBackup(ids, issue.key, BeforeNull(issue.attachments));
      BreakItems(ids, issue, early, atts, BreakEffect(ids, issue, early).items);
    }
    BothOfBackup(Effect(ids, walk.found), StopEffect(ids, walk.stop, early), ids.backupPointId);
  }

  /** The check that the ok entries of the object type of issues are as many as the issues gone through. */
  ghost predicate OmissionCheckPasses(ids: Ids, walk: Walk, early: bool, earlier: seq<ItemEntry>) {
    CountItems(earlier + WalkEffect(ids, walk, early).items, ids.backupPointId, JiraIssue, true) == |walk.found|
  }

  lemma OkEntries(ids: Ids, walk: Walk, early: bool, effect: Tally)
    requires effect == WalkEffect(ids, walk, early)
    ensures Count(effect.items).okIssues + Count(effect.items).okAttachments
            == HowMany(walk.found, IsSound) + AllDownloads(walk.found, true) + DownloadsAtStop(walk.stop, early, true)
  {
    LedgerOfWalk(ids, walk, early, effect);
  }

  /**
   Because attachments are counted as issues, the check that every discovered issue has an ok entry compares
   something else: it passes exactly when as many issues lack one as attachments are stored, now or earlier.
   */
  lemma OmissionCheckExactly(ids: Ids, walk: Walk, early: bool, earlier: seq<ItemEntry>)
    ensures OmissionCheckPasses(ids, walk, early, earlier)
            <==> HowMany(walk.found, IsMissed)
                 == AllDownloads(walk.found, true) + DownloadsAtStop(walk.stop, early, true)
                    + CountItems(earlier, ids.backupPointId, JiraIssue, true)
  {
    var items := WalkEffect(ids, walk, early).items;
    OkEntries(ids, walk, early, WalkEffect(ids, walk, early));
    IssuesPartition(walk.found);
    WalkItemsAreOfBackup(ids, walk, early);
    OkItemsOfOneBackup(items, ids.backupPointId);
    CountItemsConcat(earlier, items, ids.backupPointId, JiraIssue, true);
  }

  /**
   In a new backup the check does what it is for, passing exactly when every issue has its ok entry, exactly when
   stored attachments neither stand in for missed issues nor get in the way of sound ones.
   */
  lemma OmissionCheckIsRightExactly(ids: Ids, issues: seq<Issue>)
    ensures (OmissionCheckPasses(ids, Walk(issues, Nowhere), false, [])
             <==> forall i :: 0 <= i < |issues| ==> IsSound(issues[i]))
            <==> if HowMany(issues, IsMissed) == 0 then AllDownloads(issues, true) == 0
                 else AllDownloads(issues, true) != HowMany(issues, IsMissed)
  {
    OmissionCheckExactly(ids, Walk(issues, Nowhere), false, []);
    NoneHas(issues, IsMissed);
    assert forall i :: 0 <= i < |issues| ==> (IsMissed(issues[i]) <==> !IsSound(issues[i]));
  }

  /**
   An issue that cannot be fetched and one with a stored attachment: the check passes although an issue is missing.
   */
  lemma OmissionCanPassTheCheck(ids: Ids, lost: Issue, kept: Issue)
    requires lost.fetchSupplements == Fails("HTTP 500") && lost.readFields == Succeeds
    requires kept.readFields == kept.fetchSupplements == kept.writePayload == Succeeds && kept.binding.AsText?
    requires kept.attachments == [Attachment("1", Succeeds)]
    ensures IsMissed(lost) && OmissionCheckPasses(ids, Walk([lost, kept], Nowhere), false, [])
  {
    var issues := [lost, kept];
    assert BeforeNull(kept.attachments) == kept.attachments by {
      BeforeNullIs(kept.attachments, []);
      assert kept.attachments + [] == kept.attachments;
    }
    OneStored(kept.attachments);
    OneMissedOneStored(issues, lost, kept);
    OmissionCheckExactly(ids, Walk(issues, Nowhere), false, []);
  }

  lemma OneStored(attachments: seq<Attachment>)
    requires attachments == [Attachment("1", Succeeds)]
    ensures Downloads(attachments, true) == 1
  {
    assert attachments[..0] == [];
  }

  lemma OneMissedOneStored(issues: seq<Issue>, lost: Issue, kept: Issue)
    requires issues == [lost, kept] && !IsPrepared(lost) && IsSound(kept)
    requires Downloads(BeforeNull(kept.attachments), true) == 1
    ensures HowMany(issues, IsMissed) == 1 && AllDownloads(issues, true) == 1
  {
    var first := issues[..1];
    assert HowMany(first[..0], IsMissed) == 0 && AllDownloads(first[..0], true) == 0;
    assert HowMany(first, IsMissed) == 1 && AllDownloads(first, true) == 0;
  }

  /** What a run goes through; nothing if the backup directory cannot be made. */
  function RunWalk(projects: seq<Project>, directoryReady: bool, wired: bool): Walk {
    if directoryReady then WalkProjects(projects, wired) else NOT_YET
  }

  /** A whole capture followed by `finalize` with the number of issues gone through, even after a run that rejected. */
  method CaptureAndFinalize(orchestrator: IssueCaptureOrchestrator, projects: seq<Project>, directoryReady: bool,
                            now: Timestamp)
    returns (run: RunResult, r: FinalizeResult, ghost early: bool)
    requires orchestrator.Valid() && orchestrator.writer.Valid()
    modifies orchestrator.Frame(), orchestrator.writer.repo`items, orchestrator.writer.repo`points
    ensures run.RunCompleted? <==> directoryReady && NothingBreaks(projects, orchestrator.Wired())
    ensures var walk, id := RunWalk(projects, directoryReady, orchestrator.Wired()), orchestrator.ids.backupPointId;
            r.Final? <==> HowMany(walk.found, IsMissed)
                          == AllDownloads(walk.found, true) + DownloadsAtStop(walk.stop, early, true)
                             + old(CountItems(orchestrator.writer.repo.items, id, JiraIssue, true))
  {
    ghost var earlier := orchestrator.writer.repo.items;
    var walk := RunWalk(projects, directoryReady, orchestrator.Wired());
    run, early := RunFrom(orchestrator, projects, directoryReady, earlier, walk);
    OmissionCheckExactly(orchestrator.ids, walk, early, earlier);
    r := FinalizeWithCount(orchestrator.writer, |walk.found|, now);
  }

  method FinalizeWithCount(writer: BackupPointManifestWriter, issues: nat, now: Timestamp) returns (r: FinalizeResult)
    requires writer.Valid()
    modifies writer.repo`points
    ensures r.Final? <==> CountItems(writer.repo.items, writer.config.backupPointId, JiraIssue, true) == issues
  {
    var discovered: DiscoveredCounts := [(JiraIssue, Some(issues))];
    assert discovered[0] == (JiraIssue, Some(issues));
    r := writer.Finalize(ManifestStatus.Completed, discovered, now);
  }

  method RunFrom(orchestrator: IssueCaptureOrchestrator, projects: seq<Project>, directoryReady: bool,
                 ghost earlier: seq<ItemEntry>, ghost walk: Walk)
    returns (run: RunResult, ghost early: bool)
    requires orchestrator.Valid() && orchestrator.writer.Valid() && orchestrator.writer.repo.items == earlier
    requires walk == RunWalk(projects, directoryReady, orchestrator.Wired())
    modifies orchestrator.Frame(), orchestrator.writer.repo`items
    ensures run.RunCompleted? <==> directoryReady && NothingBreaks(projects, orchestrator.Wired())
    ensures orchestrator.writer.Valid()
    ensures orchestrator.writer.repo.items == earlier + WalkEffect(orchestrator.ids, walk, early).items
  {
    ghost var base := StandOf(orchestrator);
    StandIsBase(orchestrator, base);
    run, early := orchestrator.Run(projects, directoryReady, base);
  }

  /** Where the four places stand. */
  ghost function StandOf(o: IssueCaptureOrchestrator): Tally
    reads o, o.writer.repo, o.emitter, o.jobStore
  {
    Tally(o.totalCaptured, o.totalErrors, o.writer.repo.items,
          if o.jobStore == null then [] else o.jobStore.errors,
          if o.emitter == null then 0 else o.emitter.itemsProcessed,
          if o.emitter == null then 0 else o.emitter.itemsFailed)
  }

  lemma StandIsBase(o: IssueCaptureOrchestrator, base: Tally)
    requires base == StandOf(o)
    ensures o.CountsAre(base, NOTHING)
  {
    PlusAssociates(base, NOTHING, NOTHING);
  }
}
