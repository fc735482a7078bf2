/**
 The token refresh protocol told from its events: what each answer of the network leads to, and that where a request
 or a refresh stands, and what was stored, is exactly what the events of the run say.
 */
module RefreshHistory {
  import opened Common
  import opened Credentials
  import opened RefreshProtocol

  // What one answer does

  /** A first response of any status but 401 ends the request with that status, and nothing else changes. */
  lemma OtherStatusIsReturned(s: State, id: nat, status: int)
    requires id < |s.calls| && s.calls[id].at == Fetching && status != 401
    ensures var t := Apply(s, Respond(id, status));
            && t.calls == s.calls[id := s.calls[id].(at := Finished(Responded(status)))]
            && t.refreshes == s.refreshes && t.pairs == s.pairs && t.inFlight == s.inFlight
            && t.apiToken == s.apiToken && t.mode == s.mode
  {
  }

  /**
   A 401 posts a refresh exactly when the request has been sent once, with a stored pair, and no refresh is in flight;
   what is posted is then the refresh token stored last. If one is in flight it is joined; a request that was sent
   again, or not with OAuth, ends with the 401.
   */
  lemma UnauthorizedPostsExactly(s: State, id: nat)
    requires id < |s.calls| && s.calls[id].at == Fetching
    ensures var t := Apply(s, Respond(id, 401));
            var c := s.calls[id];
            var first := |c.sends| == 1 && s.mode == OAuth;
            && (|t.refreshes| > |s.refreshes| <==> first && s.inFlight == None && s.pairs != [])
            && (first && s.inFlight == None && s.pairs != [] ==>
                  var last := |s.pairs| - 1;
                  && t.refreshes == s.refreshes + [Refresh(id, s.pairs[last].refreshToken, last, Posted)]
                  && t.inFlight == Some(|s.refreshes|)
                  && t.calls == s.calls[id := c.(joined := Some(|s.refreshes|), at := Awaiting)])
            && (first && s.inFlight.Some? && s.pairs != [] ==>
                  && t.refreshes == s.refreshes && t.inFlight == s.inFlight
                  && t.calls == s.calls[id := c.(joined := s.inFlight, at := Awaiting)])
            && (first && s.pairs == [] ==> t.calls == s.calls[id := c.(at := Finished(Failed(NoCredential)))])
            && (!first ==> t.calls == s.calls[id := c.(at := Finished(Responded(401)))])
  {
  }

  /** A new request is sent with the credential of its client's mode, and for OAuth with the pair stored last. */
  lemma RequestIsSentWith(s: State)
    ensures var t := Apply(s, Begin);
            && |t.calls| == |s.calls| + 1 && t.calls[..|s.calls|] == s.calls
            && t.refreshes == s.refreshes && t.pairs == s.pairs && t.inFlight == s.inFlight
    ensures var c := Apply(s, Begin).calls[|s.calls|];
            && c.joined == None
            && (s.mode.Explicit? ==> c.sends == [Basic(s.mode.auth)] && c.at == Fetching)
            && (s.mode.ByApiToken? && s.apiToken.Some? ==> c.sends == [Basic(s.apiToken.value)] && c.at == Fetching)
            && (s.mode.OAuth? && s.pairs != [] ==>
                  && c.sends == [Bearer(s.pairs[|s.pairs| - 1].accessToken, |s.pairs| - 1)] && c.at == Fetching)
            && ((s.mode.ByApiToken? && s.apiToken == None) || (s.mode.OAuth? && s.pairs == []) ==>
                  c.sends == [] && c.at == Finished(Failed(NoCredential)))
  {
  }

  /** A waiting OAuth request resumes by being sent again with the pair stored last, or fails as its refresh did. */
  lemma RequestResumesWith(s: State, id: nat, r: nat)
    requires id < |s.calls| && s.calls[id].at == Awaiting && s.calls[id].joined == Some(r) && r < |s.refreshes|
    requires s.mode.OAuth? && s.pairs != []
    ensures var t := Apply(s, Resume(id));
            var c, last := s.calls[id], |s.pairs| - 1;
            && t.refreshes == s.refreshes && t.pairs == s.pairs && t.inFlight == s.inFlight
            && (s.refreshes[r].stage.Resolved? ==>
                  t.calls == s.calls[id := c.(sends := c.sends + [Bearer(s.pairs[last].accessToken, last)],
                                              at := Fetching)])
            && (s.refreshes[r].stage.Rejected? ==>
                  t.calls == s.calls[id := c.(at := Finished(Failed(s.refreshes[r].stage.failure)))])
            && (!s.refreshes[r].stage.Resolved? && !s.refreshes[r].stage.Rejected? ==> t == s)
  {
  }

  /** A connection stored by other code becomes the last pair, or the API token, and nothing else changes. */
  lemma ConnectionIsStored(s: State, accessToken: string, refreshToken: string, auth: BasicAuth)
    ensures Apply(s, Connect(accessToken, refreshToken))
            == s.(pairs := s.pairs + [TokenPair(accessToken, refreshToken, Connected)])
    ensures Apply(s, ConnectApiToken(auth)) == s.(apiToken := Some(auth))
  {
  }

  /** What the caller is told follows from the status alone. */
  lemma CallerIsTold(status: int)
    ensures ResultFor(Responded(401)) == AuthFailed
    ensures 200 <= status <= 299 ==> ResultFor(Responded(status)) == Body
    ensures status != 401 && !(200 <= status <= 299) ==> ResultFor(Responded(status)) == HttpError(status)
  {
  }

  // What the events of a run say

  /** The event was one of the run's, at a point where it could happen. */
  predicate Happened(s0: State, events: seq<Event>, e: Event) {
    events != [] &&
    var before, last := events[..|events| - 1], events[|events| - 1];
    Happened(s0, before, e) || (last == e && Enabled(Run(s0, before), e))
  }

  lemma OneMore(s0: State, events: seq<Event>, last: Event, e: Event, all: seq<Event>)
    requires all == events + [last]
    ensures Run(s0, all) == Apply(Run(s0, events), last)
    ensures Happened(s0, all, e) <==> Happened(s0, events, e) || (last == e && Enabled(Run(s0, events), e))
  {
    assert all[..|events|] == events;
  }

  /** What a run that heard so much about a request leaves of it. */
  ghost predicate CallFits(s: State, id: nat, status: int, unauthorized: bool, other: bool, rejected: bool) {
    if id >= |s.calls| then !unauthorized && !other && !rejected
    else
      var c := s.calls[id];
      && (c.joined.Some? <==> s.mode == OAuth && unauthorized)
      && (c.at == Finished(Responded(status)) <==> other)
      && (c.at == Finished(Failed(FetchFailed)) <==> rejected)
      && (c.at == Finished(Responded(401)) ==> unauthorized)
      && (s.mode != OAuth && unauthorized ==> c.at == Finished(Responded(401)))
  }

  /** A step that is not about the request leaves it alone. */
  lemma OtherCallStays(s: State, e: Event, t: State, id: nat)
    requires t == Apply(s, e) && id < |s.calls|
    requires !((e.Respond? || e.FetchRejected? || e.Resume?) && e.id == id && Enabled(s, e))
    ensures id < |t.calls| && t.calls[id] == s.calls[id] && t.mode == s.mode
  {
  }

  lemma OwnCallStepFits(s: State, e: Event, t: State, id: nat, status: int, unauthorized: bool, other: bool,
                        rejected: bool)
    requires Inv(s) && t == Apply(s, e) && status != 401 && CallFits(s, id, status, unauthorized, other, rejected)
    requires id < |s.calls| && Enabled(s, e) && (e.Respond? || e.FetchRejected? || e.Resume?) && e.id == id
    ensures CallFits(t, id, status, unauthorized || e == Respond(id, 401), other || e == Respond(id, status),
                     rejected || e == FetchRejected(id))
  {
    var c := s.calls[id];
    assert CallOk(s, c);
    if e.Resume? {
      assert RefreshOk(s.pairs, s.refreshes[c.joined.value]);
      assert SendOk(s, c.sends[0]);
      RequestResumesWith(s, id, c.joined.value);
    } else if e == Respond(id, 401) {
      assert SendOk(s, c.sends[0]);
      UnauthorizedPostsExactly(s, id);
    } else if e.Respond? {
      OtherStatusIsReturned(s, id, e.status);
    }
  }

  lemma CallStepFits(s: State, e: Event, t: State, id: nat, status: int, unauthorized: bool, other: bool,
                     rejected: bool)
    requires Inv(s) && t == Apply(s, e) && status != 401 && CallFits(s, id, status, unauthorized, other, rejected)
    ensures CallFits(t, id, status, unauthorized || (e == Respond(id, 401) && Enabled(s, e)),
                     other || (e == Respond(id, status) && Enabled(s, e)),
                     rejected || (e == FetchRejected(id) && Enabled(s, e)))
  {
    if id >= |s.calls| {
      if e == Begin {
        RequestIsSentWith(s);
      }
    } else if (e.Respond? || e.FetchRejected? || e.Resume?) && e.id == id && Enabled(s, e) {
      OwnCallStepFits(s, e, t, id, status, unauthorized, other, rejected);
    } else {
      OtherCallStays(s, e, t, id);
    }
  }

  lemma {:induction false} CallFollowsEvents(s0: State, events: seq<Event>, id: nat, status: int)
    requires Initial(s0) && status != 401
    ensures CallFits(Run(s0, events), id, status, Happened(s0, events, Respond(id, 401)),
                     Happened(s0, events, Respond(id, status)), Happened(s0, events, FetchRejected(id)))
  {
    if events != [] {
      var n := |events| - 1;
      var before, e := events[..n], events[n];
      CallFollowsEvents(s0, before, id, status);
      RunKeepsInv(s0, before);
      assert before + [e] == events;
      OneMore(s0, before, e, Respond(id, 401), events);
      OneMore(s0, before, e, Respond(id, status), events);
      OneMore(s0, before, e, FetchRejected(id), events);
      CallStepFits(Run(s0, before), e, Run(s0, events), id, status, Happened(s0, before, Respond(id, 401)),
                   Happened(s0, before, Respond(id, status)), Happened(s0, before, FetchRejected(id)));
    }
  }

  /** Over every run: a request has started or joined a refresh exactly when it is an OAuth request that got a 401. */
  lemma JoinedExactlyAfterUnauthorized(s0: State, events: seq<Event>, id: nat)
    requires Initial(s0) && id < |Run(s0, events).calls|
    ensures var s := Run(s0, events);
            s.calls[id].joined.Some? <==> s.mode == OAuth && Happened(s0, events, Respond(id, 401))
  {
    CallFollowsEvents(s0, events, id, 200);
  }

  /** And it ends with a status other than 401, or with a network error, exactly when it was answered so. */
  lemma EndsAsAnswered(s0: State, events: seq<Event>, id: nat, status: int)
    requires Initial(s0) && id < |Run(s0, events).calls| && status != 401
    ensures var at := Run(s0, events).calls[id].at;
            && (at == Finished(Responded(status)) <==> Happened(s0, events, Respond(id, status)))
            && (at == Finished(Failed(FetchFailed)) <==> Happened(s0, events, FetchRejected(id)))
            && (at == Finished(Responded(401)) ==> Happened(s0, events, Respond(id, 401)))
  {
    CallFollowsEvents(s0, events, id, status);
  }

  predicate FailedWith(stage: Stage, failure: Failure) {
    stage == Broken(failure) || stage == Rejected(failure)
  }

  /** The refresh has stored this pair. */
  predicate Wrote(s: State, stage: Stage, accessToken: string, refreshToken: string) {
    && (stage.Stored? || stage.Resolved?) && stage.written < |s.pairs|
    && s.pairs[stage.written] == TokenPair(accessToken, refreshToken, Rotated)
  }

  /** What was heard about a refresh: its post, its answer, the error text or the body. */
  datatype Heard = Heard(
    unsent: bool,
    accepted: bool,
    refused: bool,
    text: bool,
    noText: bool,
    noBody: bool,
    body: bool,
    settled: bool)

  ghost predicate RefreshFits(s: State, r: nat, h: Heard, accessToken: string, refreshToken: string) {
    if r >= |s.refreshes| then h == Heard(false, false, false, false, false, false, false, false)
    else
      var stage := s.refreshes[r].stage;
      && (FailedWith(stage, RefreshNetworkError) <==> h.unsent)
      && (FailedWith(stage, RefreshFailed) <==> h.text)
      && (FailedWith(stage, BodyUnreadable) <==> h.noText || h.noBody)
      && (Wrote(s, stage, accessToken, refreshToken) <==> h.body)
      && (h.refused <==> stage.ReadingError? || h.text || h.noText)
      && (h.accepted <==> stage.ReadingBody? || stage.Stored? || stage.Resolved? || h.noBody)
      && !(h.accepted && h.refused)
      && (h.settled <==> stage.Resolved? || stage.Rejected?)
  }

  function Hear(s: State, e: Event, r: nat, h: Heard, accessToken: string, refreshToken: string): Heard {
    if !Enabled(s, e) then h
    else
      Heard(h.unsent || e == PostRejected(r), h.accepted || e == PostAnswered(r, true),
            h.refused || e == PostAnswered(r, false), h.text || e == ErrorRead(r, true),
            h.noText || e == ErrorRead(r, false), h.noBody || e == BodyRead(r, None),
            h.body || e == BodyRead(r, Some((accessToken, refreshToken))), h.settled || e == Settle(r))
  }

  predicate About(e: Event, r: nat) {
    (e.PostRejected? || e.PostAnswered? || e.ErrorRead? || e.BodyRead? || e.Settle?) && e.r == r
  }

  /** A step that is not about the refresh leaves it alone, and whatever is stored stays. */
  lemma OtherRefreshStays(s: State, e: Event, t: State, r: nat)
    requires t == Apply(s, e) && r < |s.refreshes| && !(About(e, r) && Enabled(s, e))
    ensures r < |t.refreshes| && t.refreshes[r] == s.refreshes[r] && s.pairs <= t.pairs
  {
  }

  lemma OwnRefreshStep(s: State, e: Event, t: State, r: nat)
    requires t == Apply(s, e) && r < |s.refreshes| && About(e, r) && Enabled(s, e) && s.pairs != []
    ensures r < |t.refreshes| && s.pairs <= t.pairs
    ensures var before, after := s.refreshes[r].stage, t.refreshes[r].stage;
            && (e.PostRejected? ==> before == Posted && after == Broken(RefreshNetworkError))
            && (e.PostAnswered? ==> before == Posted && after == if e.ok then ReadingBody else ReadingError)
            && (e.ErrorRead? ==>
                  before == ReadingError && after == Broken(if e.readable then RefreshFailed else BodyUnreadable))
            && (e.BodyRead? ==>
                  && before == ReadingBody
                  && (e.body == None ==> after == Broken(BodyUnreadable))
                  && (e.body.Some? ==>
                        after == Stored(|s.pairs|)
                        && t.pairs == s.pairs + [TokenPair(e.body.value.0, e.body.value.1, Rotated)]))
            && (e.Settle? ==>
                  || (before.Stored? && after == Resolved(before.written))
                  || (before.Broken? && after == Rejected(before.failure)))
  {
  }

  lemma OwnRefreshFits(s: State, e: Event, t: State, r: nat, h: Heard, accessToken: string, refreshToken: string)
    requires t == Apply(s, e) && r < |s.refreshes| && About(e, r) && Enabled(s, e) && s.pairs != []
    requires RefreshFits(s, r, h, accessToken, refreshToken) && !e.Settle?
    ensures RefreshFits(t, r, Hear(s, e, r, h, accessToken, refreshToken), accessToken, refreshToken)
  {
    OwnRefreshStep(s, e, t, r);
  }

  lemma SettlingFits(s: State, e: Event, t: State, r: nat, h: Heard, accessToken: string, refreshToken: string)
    requires t == Apply(s, e) && r < |s.refreshes| && e == Settle(r) && Enabled(s, e) && s.pairs != []
    requires RefreshFits(s, r, h, accessToken, refreshToken)
    requires s.refreshes[r].stage.Stored? ==> s.refreshes[r].stage.written < |s.pairs|
    ensures RefreshFits(t, r, Hear(s, e, r, h, accessToken, refreshToken), accessToken, refreshToken)
  {
    OwnRefreshStep(s, e, t, r);
  }

  lemma OtherRefreshFits(s: State, e: Event, t: State, r: nat, h: Heard, accessToken: string, refreshToken: string)
    requires t == Apply(s, e) && r < |s.refreshes| && !(About(e, r) && Enabled(s, e))
    requires var stage := s.refreshes[r].stage; (stage.Stored? || stage.Resolved?) ==> stage.written < |s.pairs|
    requires RefreshFits(s, r, h, accessToken, refreshToken)
    ensures RefreshFits(t, r, Hear(s, e, r, h, accessToken, refreshToken), accessToken, refreshToken)
  {
    OtherRefreshStays(s, e, t, r);
    assert Hear(s, e, r, h, accessToken, refreshToken) == h;
  }

  lemma RefreshStepFits(s: State, e: Event, t: State, r: nat, h: Heard, accessToken: string, refreshToken: string)
    requires Inv(s) && t == Apply(s, e) && RefreshFits(s, r, h, accessToken, refreshToken)
    ensures RefreshFits(t, r, Hear(s, e, r, h, accessToken, refreshToken), accessToken, refreshToken)
  {
    if r >= |s.refreshes| {
      NewRefreshFits(s, e, t, r, h, accessToken, refreshToken);
      return;
    }
    assert RefreshOk(s.pairs, s.refreshes[r]);
    if !(About(e, r) && Enabled(s, e)) {
      OtherRefreshFits(s, e, t, r, h, accessToken, refreshToken);
    } else if e.Settle? {
      SettlingFits(s, e, t, r, h, accessToken, refreshToken);
    } else {
      OwnRefreshFits(s, e, t, r, h, accessToken, refreshToken);
    }
  }

  lemma NewRefreshFits(s: State, e: Event, t: State, r: nat, h: Heard, accessToken: string, refreshToken: string)
    requires t == Apply(s, e) && r >= |s.refreshes| && RefreshFits(s, r, h, accessToken, refreshToken)
    ensures RefreshFits(t, r, Hear(s, e, r, h, accessToken, refreshToken), accessToken, refreshToken)
  {
    assert Hear(s, e, r, h, accessToken, refreshToken) == h;
    assert r < |t.refreshes| ==> t.refreshes[r].stage == Posted;
  }

  ghost function HeardIn(s0: State, events: seq<Event>, r: nat, accessToken: string, refreshToken: string): Heard {
    Heard(Happened(s0, events, PostRejected(r)), Happened(s0, events, PostAnswered(r, true)),
          Happened(s0, events, PostAnswered(r, false)), Happened(s0, events, ErrorRead(r, true)),
          Happened(s0, events, ErrorRead(r, false)), Happened(s0, events, BodyRead(r, None)),
          Happened(s0, events, BodyRead(r, Some((accessToken, refreshToken)))), Happened(s0, events, Settle(r)))
  }

  lemma {:induction false} RefreshFollowsEvents(s0: State, events: seq<Event>, r: nat, accessToken: string,
                                                refreshToken: string)
    requires Initial(s0)
    ensures RefreshFits(Run(s0, events), r, HeardIn(s0, events, r, accessToken, refreshToken), accessToken,
                        refreshToken)
  {
    if events != [] {
      var n := |events| - 1;
      var before, e := events[..n], events[n];
      RefreshFollowsEvents(s0, before, r, accessToken, refreshToken);
      RunKeepsInv(s0, before);
      assert before + [e] == events;
      HeardOneMore(s0, before, e, r, accessToken, refreshToken, events);
      RefreshStepFits(Run(s0, before), e, Run(s0, events), r, HeardIn(s0, before, r, accessToken, refreshToken),
                      accessToken, refreshToken);
    }
  }

  lemma HeardOneMore(s0: State, events: seq<Event>, e: Event, r: nat, accessToken: string, refreshToken: string,
                     all: seq<Event>)
    requires all == events + [e]
    ensures HeardIn(s0, all, r, accessToken, refreshToken)
            == Hear(Run(s0, events), e, r, HeardIn(s0, events, r, accessToken, refreshToken), accessToken, refreshToken)
  {
    OneMore(s0, events, e, PostRejected(r), all);
    OneMore(s0, events, e, PostAnswered(r, true), all);
    OneMore(s0, events, e, PostAnswered(r, false), all);
    OneMore(s0, events, e, ErrorRead(r, true), all);
    OneMore(s0, events, e, ErrorRead(r, false), all);
    OneMore(s0, events, e, BodyRead(r, None), all);
    OneMore(s0, events, e, BodyRead(r, Some((accessToken, refreshToken))), all);
    OneMore(s0, events, e, Settle(r), all);
  }

  /**
   Over every run, a refresh has stored a pair exactly when its post was accepted and a body with these two tokens
   was read.
   */
  lemma StoredExactlyWhatWasRead(s0: State, events: seq<Event>, r: nat, accessToken: string, refreshToken: string)
    requires Initial(s0) && r < |Run(s0, events).refreshes|
    ensures var s := Run(s0, events);
            Wrote(s, s.refreshes[r].stage, accessToken, refreshToken)
            <==> Happened(s0, events, BodyRead(r, Some((accessToken, refreshToken))))
    ensures Happened(s0, events, BodyRead(r, Some((accessToken, refreshToken))))
            ==> Happened(s0, events, PostAnswered(r, true)) && !Happened(s0, events, PostAnswered(r, false))
  {
    RefreshFollowsEvents(s0, events, r, accessToken, refreshToken);
  }

  /** And it fails exactly when, and with the error with which, its post, its answer or its body failed. */
  lemma FailsExactlyAsAnswered(s0: State, events: seq<Event>, r: nat)
    requires Initial(s0) && r < |Run(s0, events).refreshes|
    ensures var stage := Run(s0, events).refreshes[r].stage;
            && (FailedWith(stage, RefreshNetworkError) <==> Happened(s0, events, PostRejected(r)))
            && (FailedWith(stage, RefreshFailed) <==> Happened(s0, events, ErrorRead(r, true)))
            && (FailedWith(stage, BodyUnreadable)
                <==> Happened(s0, events, ErrorRead(r, false)) || Happened(s0, events, BodyRead(r, None)))
            && (Happened(s0, events, PostAnswered(r, false))
                <==> stage.ReadingError? || Happened(s0, events, ErrorRead(r, true))
                     || Happened(s0, events, ErrorRead(r, false)))
            && (stage.Resolved? || stage.Rejected? <==> Happened(s0, events, Settle(r)))
  {
    RefreshFollowsEvents(s0, events, r, "", "");
  }
}
