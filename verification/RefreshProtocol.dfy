/**
 The token refresh protocol of one client instance, as a transition system: every step is a stretch of
 src/http/JiraHttpClient.ts between two awaits, and steps of different requests interleave freely. The answers
 of the network, and reconnections stored by other code, are part of the steps.
 */
module RefreshProtocol {
  import opened Common
  import opened Credentials

  /** How a client authenticates: by stored OAuth pair, by stored API token, or by the credential it was given. */
  datatype Mode = OAuth | ByApiToken | Explicit(auth: BasicAuth)

  /** An Authorization header; a bearer header also says which write of the pair its token was read from. */
  datatype Header = Bearer(token: string, version: nat) | Basic(auth: BasicAuth)

  datatype Failure =
    | NoCredential
    | FetchFailed
    | RefreshNetworkError
    | RefreshFailed
    | BodyUnreadable
    | RotationFailed

  /** Where the work of one refresh stands; the last two stages are those of its promise once settled. */
  datatype Stage =
    | Posted
    | ReadingBody
    | ReadingError
    | Stored(written: nat)
    | Broken(failure: Failure)
    | Resolved(written: nat)
    | Rejected(failure: Failure)

  /** The request that started it, and the refresh token it posted with the write that token was read from. */
  datatype Refresh = Refresh(starter: nat, token: string, version: nat, stage: Stage)

  datatype Outcome = Responded(status: int) | Failed(failure: Failure)

  datatype Position = Fetching | Awaiting | Finished(outcome: Outcome)

  /** A request: the headers it was sent with, the refresh it started or joined, and where it is suspended. */
  datatype Call = Call(sends: seq<Header>, joined: Option<nat>, at: Position)

  datatype State = State(
    mode: Mode,
    pairs: seq<TokenPair>,
    apiToken: Option<BasicAuth>,
    inFlight: Option<nat>,
    refreshes: seq<Refresh>,
    calls: seq<Call>)

  datatype Event =
    | Begin
    | FetchRejected(id: nat)
    | Respond(id: nat, status: int)
    | PostRejected(r: nat)
    | PostAnswered(r: nat, ok: bool)
    | BodyRead(r: nat, body: Option<(string, string)>)
    | ErrorRead(r: nat, readable: bool)
    | Settle(r: nat)
    | Resume(id: nat)
    | Connect(accessToken: string, refreshToken: string)
    | ConnectApiToken(auth: BasicAuth)

  const UNAUTHORIZED := 401

  predicate Settled(stage: Stage) {
    stage.Resolved? || stage.Rejected?
  }

  predicate Succeeded(stage: Stage) {
    stage.Stored? || stage.Resolved?
  }

  // Steps

  predicate Enabled(s: State, e: Event) {
    match e
    case Begin => true
    case FetchRejected(id) => id < |s.calls| && s.calls[id].at.Fetching?
    case Respond(id, _) => id < |s.calls| && s.calls[id].at.Fetching?
    case PostRejected(r) => r < |s.refreshes| && s.refreshes[r].stage.Posted?
    case PostAnswered(r, _) => r < |s.refreshes| && s.refreshes[r].stage.Posted?
    case BodyRead(r, _) => r < |s.refreshes| && s.refreshes[r].stage.ReadingBody?
    case ErrorRead(r, _) => r < |s.refreshes| && s.refreshes[r].stage.ReadingError?
    case Settle(r) => r < |s.refreshes| && (s.refreshes[r].stage.Stored? || s.refreshes[r].stage.Broken?)
    case Resume(id) =>
      && id < |s.calls| && s.calls[id].at.Awaiting? && s.calls[id].joined.Some?
      && s.calls[id].joined.value < |s.refreshes| && Settled(s.refreshes[s.calls[id].joined.value].stage)
    case Connect(_, _) => true
    case ConnectApiToken(_) => true
  }

  /** The header a request is sent with now, if there is a credential for it. */
  function AuthHeader(s: State): Option<Header> {
    match s.mode
    case Explicit(auth) => Some(Basic(auth))
    case ByApiToken => if s.apiToken.Some? then Some(Basic(s.apiToken.value)) else None
    case OAuth =>
      if s.pairs == [] then None
      else Some(Bearer(s.pairs[|s.pairs| - 1].accessToken, |s.pairs| - 1))
  }

  /** `call` is sent, or sent again, with the current credential. */
  function SendNow(s: State, call: Call): Call {
    var header := AuthHeader(s);
    if header == None then call.(at := Finished(Failed(NoCredential)))
    else call.(sends := call.sends + [header.value], at := Fetching)
  }

  function WithCall(s: State, id: nat, call: Call): State
    requires id < |s.calls|
  {
    s.(calls := s.calls[id := call])
  }

  function Finish(s: State, id: nat, outcome: Outcome): State
    requires id < |s.calls|
  {
    WithCall(s, id, s.calls[id].(at := Finished(outcome)))
  }

  function AtStage(s: State, r: nat, stage: Stage): State
    requires r < |s.refreshes|
  {
    s.(refreshes := s.refreshes[r := s.refreshes[r].(stage := stage)])
  }

  /** A request that got a 401 joins the refresh in flight, or starts one with the stored refresh token. */
  function JoinOrStart(s: State, id: nat): State
    requires id < |s.calls|
  {
    if s.pairs == [] then Finish(s, id, Failed(NoCredential))
    else if s.inFlight.Some? then WithCall(s, id, s.calls[id].(joined := s.inFlight, at := Awaiting))
    else
      var r, version := |s.refreshes|, |s.pairs| - 1;
      WithCall(s, id, s.calls[id].(joined := Some(r), at := Awaiting)).(
        inFlight := Some(r),
        refreshes := s.refreshes + [Refresh(id, s.pairs[version].refreshToken, version, Posted)])
  }

  /** A 401 is acted on only by the first attempt of an OAuth request. */
  predicate Refreshes(s: State, id: nat, status: int)
    requires id < |s.calls|
  {
    status == UNAUTHORIZED && |s.calls[id].sends| == 1 && s.mode == OAuth
  }

  function Rotate(s: State, r: nat, accessToken: string, refreshToken: string): State
    requires r < |s.refreshes|
  {
    if s.pairs == [] then AtStage(s, r, Broken(RotationFailed))
    else AtStage(s, r, Stored(|s.pairs|)).(pairs := s.pairs + [TokenPair(accessToken, refreshToken, Rotated)])
  }

  /** The promise is settled and the mutex released in one step. */
  function SettleRefresh(s: State, r: nat): State
    requires r < |s.refreshes| && (s.refreshes[r].stage.Stored? || s.refreshes[r].stage.Broken?)
  {
    AtStage(s, r, match s.refreshes[r].stage
                  case Stored(written) => Resolved(written)
                  case Broken(failure) => Rejected(failure)).(inFlight := None)
  }

  /** An event that is not enabled changes nothing. */
  function Apply(s: State, e: Event): State {
    if !Enabled(s, e) then s
    else
      match e
      case Begin => s.(calls := s.calls + [SendNow(s, Call([], None, Fetching))])
      case FetchRejected(id) => Finish(s, id, Failed(FetchFailed))
      case Respond(id, status) =>
        if Refreshes(s, id, status) then JoinOrStart(s, id) else Finish(s, id, Responded(status))
      case PostRejected(r) => AtStage(s, r, Broken(RefreshNetworkError))
      case PostAnswered(r, ok) => AtStage(s, r, if ok then ReadingBody else ReadingError)
      case BodyRead(r, body) =>
        if body == None then AtStage(s, r, Broken(BodyUnreadable)) else Rotate(s, r, body.value.0, body.value.1)
      case ErrorRead(r, readable) => AtStage(s, r, Broken(if readable then RefreshFailed else BodyUnreadable))
      case Settle(r) => SettleRefresh(s, r)
      case Resume(id) =>
        (match s.refreshes[s.calls[id].joined.value].stage
         case Resolved(_) => WithCall(s, id, SendNow(s, s.calls[id]))
         case Rejected(failure) => Finish(s, id, Failed(failure)))
      case Connect(accessToken, refreshToken) =>
        s.(pairs := s.pairs + [TokenPair(accessToken, refreshToken, Connected)])
      case ConnectApiToken(auth) => s.(apiToken := Some(auth))
  }

  function Run(s: State, events: seq<Event>): State {
    if events == [] then s else Apply(Run(s, events[..|events| - 1]), events[|events| - 1])
  }

  /** A new client over any credential rows. */
  predicate Initial(s: State) {
    && s.inFlight == None && s.refreshes == [] && s.calls == []
    && forall k :: 0 <= k < |s.pairs| ==> s.pairs[k].origin == Connected
  }

  // The invariant

  /** The mutex names the one refresh that is not settled, which is the latest. */
  ghost predicate MutexOk(s: State) {
    && (s.inFlight.Some? ==> s.inFlight.value == |s.refreshes| - 1)
    && forall r :: 0 <= r < |s.refreshes| ==> (Settled(s.refreshes[r].stage) <==> s.inFlight != Some(r))
  }

  /**
   A refresh carries a stored token. Until it has rotated or failed, only reconnections are stored after that
   token; what it rotated in comes later and is marked as a rotation.
   */
  ghost predicate RefreshOk(pairs: seq<TokenPair>, f: Refresh) {
    && f.version < |pairs| && f.token == pairs[f.version].refreshToken
    && (Succeeded(f.stage) ==> f.version < f.stage.written < |pairs| && pairs[f.stage.written].origin == Rotated)
    && (!Settled(f.stage) && !f.stage.Stored? ==>
          forall k :: f.version < k < |pairs| ==> pairs[k].origin == Connected)
    && (f.stage.Broken? || f.stage.Rejected? ==> RefreshFailure(f.stage.failure))
  }

  /** What can make a refresh fail; the row it rotates is always there. */
  predicate RefreshFailure(failure: Failure) {
    failure.RefreshNetworkError? || failure.RefreshFailed? || failure.BodyUnreadable?
  }

  /** A refresh that follows a successful one carries what that one stored, or something newer. */
  ghost predicate OrderOk(s: State) {
    forall i, j :: 0 <= i < j < |s.refreshes| && Succeeded(s.refreshes[i].stage) ==>
      s.refreshes[i].stage.written <= s.refreshes[j].version
  }

  ghost predicate SendOk(s: State, h: Header) {
    match h
    case Bearer(token, version) => s.mode == OAuth && version < |s.pairs| && token == s.pairs[version].accessToken
    case Basic(_) => s.mode != OAuth
  }

  ghost predicate CallOk(s: State, c: Call) {
    && |c.sends| <= 2
    && (forall h :: h in c.sends ==> SendOk(s, h))
    && (c.sends == [] ==> c.at == Finished(Failed(NoCredential)) && c.joined == None)
    && (c.at == Finished(Failed(NoCredential)) ==> c.sends == [])
    && (c.at == Finished(Responded(UNAUTHORIZED)) && s.mode == OAuth ==> |c.sends| == 2)
    && (c.joined.Some? ==> c.joined.value < |s.refreshes| && s.mode == OAuth)
    && (c.at.Awaiting? ==> |c.sends| == 1 && c.joined.Some?)
    && (c.at.Fetching? && |c.sends| == 1 ==> c.joined == None)
    && (|c.sends| == 2 ==>
          && c.joined.Some?
          && var f := s.refreshes[c.joined.value];
          && f.stage.Resolved? && c.sends[1].Bearer? && f.stage.written <= c.sends[1].version)
    && (c.joined.Some? && |c.sends| == 1 && !c.at.Awaiting? ==>
          && s.refreshes[c.joined.value].stage.Rejected?
          && c.at == Finished(Failed(s.refreshes[c.joined.value].stage.failure)))
  }

  ghost predicate StartersOk(s: State) {
    forall r :: 0 <= r < |s.refreshes| ==>
      s.refreshes[r].starter < |s.calls| && s.calls[s.refreshes[r].starter].joined == Some(r)
  }

  ghost predicate CallsOk(s: State) {
    forall id :: 0 <= id < |s.calls| ==> CallOk(s, s.calls[id])
  }

  ghost predicate RefreshesOk(s: State) {
    forall r :: 0 <= r < |s.refreshes| ==> RefreshOk(s.pairs, s.refreshes[r])
  }

  ghost predicate Inv(s: State) {
    MutexOk(s) && RefreshesOk(s) && OrderOk(s) && CallsOk(s) && StartersOk(s)
  }

  // Preservation, kind of step by kind of step

  lemma SendNowOk(s: State, c: Call)
    requires CallOk(s, c) && c.at.Awaiting? && s.refreshes[c.joined.value].stage.Resolved? && RefreshesOk(s)
    ensures CallOk(s, SendNow(s, c)) && SendNow(s, c).joined == c.joined
  {
  }

  lemma CallsKeep(s: State, t: State)
    requires Inv(s) && t.calls == s.calls && t.mode == s.mode && s.pairs <= t.pairs && |t.refreshes| == |s.refreshes|
    requires forall r :: 0 <= r < |s.refreshes| && Settled(s.refreshes[r].stage) ==> t.refreshes[r] == s.refreshes[r]
    ensures CallsOk(t)
  {
    forall id | 0 <= id < |t.calls|
      ensures CallOk(t, t.calls[id])
    {
      assert CallOk(s, s.calls[id]);
    }
  }

  lemma OneCallChanges(s: State, id: nat, c: Call)
    requires Inv(s) && id < |s.calls| && CallOk(s, c) && c.joined == s.calls[id].joined
    ensures Inv(WithCall(s, id, c))
  {
    var t := WithCall(s, id, c);
    forall k | 0 <= k < |t.calls|
      ensures CallOk(t, t.calls[k])
    {
      assert CallOk(s, t.calls[k]);
    }
  }

  lemma StageChanges(s: State, r: nat, stage: Stage)
    requires Inv(s) && r < |s.refreshes|
    requires !Settled(s.refreshes[r].stage) && !s.refreshes[r].stage.Stored? && !Settled(stage) && !stage.Stored?
    requires stage.Broken? ==> RefreshFailure(stage.failure)
    ensures Inv(AtStage(s, r, stage))
  {
    CallsKeep(s, AtStage(s, r, stage));
    assert RefreshOk(s.pairs, s.refreshes[r]);
  }

  lemma BeginKeeps(s: State)
    requires Inv(s)
    ensures Inv(Apply(s, Begin))
  {
    var t := Apply(s, Begin);
    forall id | 0 <= id < |t.calls|
      ensures CallOk(t, t.calls[id])
    {
      if id < |s.calls| {
        assert CallOk(s, s.calls[id]);
      }
    }
  }

  lemma JoinKeeps(s: State, id: nat, c: Call)
    requires Inv(s) && id < |s.calls| && s.inFlight.Some? && s.inFlight.value < |s.refreshes|
    requires s.calls[id].at.Fetching? && |s.calls[id].sends| == 1 && s.mode == OAuth
    requires c == s.calls[id].(joined := s.inFlight, at := Awaiting)
    ensures Inv(WithCall(s, id, c))
  {
    assert CallOk(s, s.calls[id]);
    var t := WithCall(s, id, c);
    forall k | 0 <= k < |t.calls|
      ensures CallOk(t, t.calls[k])
    {
      assert CallOk(s, s.calls[k]);
    }
  }

  lemma StartKeeps(s: State, id: nat, t: State)
    requires Inv(s) && id < |s.calls| && s.pairs != [] && s.inFlight == None && t == JoinOrStart(s, id)
    requires s.calls[id].at.Fetching? && |s.calls[id].sends| == 1 && s.mode == OAuth
    ensures Inv(t)
  {
    assert CallOk(s, s.calls[id]);
    forall k | 0 <= k < |t.calls|
      ensures CallOk(t, t.calls[k])
    {
      assert CallOk(s, s.calls[k]);
    }
    assert forall r :: 0 <= r < |s.refreshes| ==> RefreshOk(s.pairs, s.refreshes[r]);
  }

  lemma JoinOrStartKeeps(s: State, id: nat)
    requires Inv(s) && id < |s.calls| && s.calls[id].at.Fetching? && |s.calls[id].sends| == 1 && s.mode == OAuth
    ensures Inv(JoinOrStart(s, id))
  {
    assert CallOk(s, s.calls[id]) && SendOk(s, s.calls[id].sends[0]);
    if s.inFlight.Some? {
      assert s.inFlight.value < |s.refreshes|;
      JoinKeeps(s, id, s.calls[id].(joined := s.inFlight, at := Awaiting));
    } else {
      StartKeeps(s, id, JoinOrStart(s, id));
    }
  }

  lemma RotateKeeps(s: State, r: nat, accessToken: string, refreshToken: string)
    requires Inv(s) && r < |s.refreshes| && s.refreshes[r].stage.ReadingBody?
    ensures Inv(Rotate(s, r, accessToken, refreshToken))
  {
    assert RefreshOk(s.pairs, s.refreshes[r]);
    var t := Rotate(s, r, accessToken, refreshToken);
    CallsKeep(s, t);
    forall i | 0 <= i < |t.refreshes|
      ensures RefreshOk(t.pairs, t.refreshes[i])
    {
      assert RefreshOk(s.pairs, s.refreshes[i]);
    }
  }

  lemma SettleKeeps(s: State, r: nat)
    requires Inv(s) && Enabled(s, Settle(r))
    ensures Inv(SettleRefresh(s, r))
  {
    var t := SettleRefresh(s, r);
    CallsKeep(s, t);
    forall i | 0 <= i < |t.refreshes|
      ensures RefreshOk(t.pairs, t.refreshes[i])
    {
      assert RefreshOk(s.pairs, s.refreshes[i]);
    }
  }

  lemma ConnectKeeps(s: State, accessToken: string, refreshToken: string)
    requires Inv(s)
    ensures Inv(Apply(s, Connect(accessToken, refreshToken)))
  {
    var t := Apply(s, Connect(accessToken, refreshToken));
    CallsKeep(s, t);
    forall i | 0 <= i < |t.refreshes|
      ensures RefreshOk(t.pairs, t.refreshes[i])
    {
      assert RefreshOk(s.pairs, s.refreshes[i]);
    }
  }

  lemma ResumeKeeps(s: State, id: nat)
    requires Inv(s) && Enabled(s, Resume(id))
    ensures Inv(Apply(s, Resume(id)))
  {
    var c := s.calls[id];
    assert CallOk(s, c);
    var stage := s.refreshes[c.joined.value].stage;
    if stage.Resolved? {
      SendNowOk(s, c);
      OneCallChanges(s, id, SendNow(s, c));
    } else {
      assert RefreshOk(s.pairs, s.refreshes[c.joined.value]);
      OneCallChanges(s, id, c.(at := Finished(Failed(stage.failure))));
    }
  }

  lemma StepKeepsInv(s: State, e: Event)
    requires Inv(s)
    ensures Inv(Apply(s, e))
  {
    if Enabled(s, e) {
      match e
      case Begin => BeginKeeps(s);
      case FetchRejected(id) =>
        assert CallOk(s, s.calls[id]);
        OneCallChanges(s, id, s.calls[id].(at := Finished(Failed(FetchFailed))));
      case Respond(id, status) =>
        assert CallOk(s, s.calls[id]);
        if Refreshes(s, id, status) {
          JoinOrStartKeeps(s, id);
        } else {
          OneCallChanges(s, id, s.calls[id].(at := Finished(Responded(status))));
        }
      case PostRejected(r) => StageChanges(s, r, Broken(RefreshNetworkError));
      case PostAnswered(r, ok) => StageChanges(s, r, if ok then ReadingBody else ReadingError);
      case BodyRead(r, body) =>
        if body == None {
          StageChanges(s, r, Broken(BodyUnreadable));
        } else {
          RotateKeeps(s, r, body.value.0, body.value.1);
        }
      case ErrorRead(r, readable) => StageChanges(s, r, Broken(if readable then RefreshFailed else BodyUnreadable));
      case Settle(r) => SettleKeeps(s, r);
      case Resume(id) => ResumeKeeps(s, id);
      case Connect(accessToken, refreshToken) => ConnectKeeps(s, accessToken, refreshToken);
      case ConnectApiToken(auth) => CallsKeep(s, Apply(s, e));
    }
  }

  lemma {:induction false} RunKeepsInv(s: State, events: seq<Event>)
    requires Initial(s)
    ensures Inv(Run(s, events))
  {
    if events != [] {
      RunKeepsInv(s, events[..|events| - 1]);
      StepKeepsInv(Run(s, events[..|events| - 1]), events[|events| - 1]);
    }
  }

  // Safety, in every reachable state

  /** At most one refresh is outstanding, and the mutex is held exactly while one is. */
  lemma OneRefreshAtATime(s0: State, events: seq<Event>)
    requires Initial(s0)
    ensures var s := Run(s0, events);
            && (forall i, j :: 0 <= i < j < |s.refreshes| ==>
                  Settled(s.refreshes[i].stage) || Settled(s.refreshes[j].stage))
            && (s.inFlight == None <==> forall i :: 0 <= i < |s.refreshes| ==> Settled(s.refreshes[i].stage))
  {
    RunKeepsInv(s0, events);
    var s := Run(s0, events);
    if s.inFlight.Some? {
      assert 0 <= s.inFlight.value < |s.refreshes| by { InFlightExists(s0, events); }
    }
  }

  lemma {:induction false} InFlightExists(s0: State, events: seq<Event>)
    requires Initial(s0)
    ensures var s := Run(s0, events); s.inFlight.Some? ==> s.inFlight.value < |s.refreshes|
  {
    if events != [] {
      InFlightExists(s0, events[..|events| - 1]);
    }
  }

  /**
   The token a refresh posted was the stored one; until that refresh rotates it, nothing but a reconnection
   replaces it in the store.
   */
  lemma PostedTokenStaysCurrent(s0: State, events: seq<Event>, r: nat)
    requires Initial(s0) && r < |Run(s0, events).refreshes|
    ensures var s := Run(s0, events); var f := s.refreshes[r];
            && f.version < |s.pairs| && f.token == s.pairs[f.version].refreshToken
            && (!Settled(f.stage) && !Succeeded(f.stage) ==>
                  (forall k :: f.version < k < |s.pairs| ==> s.pairs[k].origin == Connected))
            && (Succeeded(f.stage) ==>
                  f.version < f.stage.written < |s.pairs| && s.pairs[f.stage.written].origin == Rotated)
  {
    RunKeepsInv(s0, events);
    assert RefreshOk(Run(s0, events).pairs, Run(s0, events).refreshes[r]);
  }

  /** The server never issues a refresh token twice, as section 6 of RFC 6749 allows it to. */
  ghost predicate FreshTokens(pairs: seq<TokenPair>) {
    forall a, b :: 0 <= a < b < |pairs| ==> pairs[a].refreshToken != pairs[b].refreshToken
  }

  /**
   Once a refresh has succeeded, no later refresh posts its token again: later ones read a pair stored later, so
   with fresh refresh tokens from the server the posted tokens differ.
   */
  lemma ConsumedTokenIsNeverPostedAgain(s0: State, events: seq<Event>, i: nat, j: nat)
    requires Initial(s0) && i < j < |Run(s0, events).refreshes|
    requires Succeeded(Run(s0, events).refreshes[i].stage)
    ensures var s := Run(s0, events);
            && s.refreshes[i].version < s.refreshes[i].stage.written <= s.refreshes[j].version
            && (FreshTokens(s.pairs) ==> s.refreshes[i].token != s.refreshes[j].token)
  {
    RunKeepsInv(s0, events);
    var s := Run(s0, events);
    assert RefreshOk(s.pairs, s.refreshes[i]) && RefreshOk(s.pairs, s.refreshes[j]);
  }

  /**
   A request is sent at most twice. It is sent again only after the refresh it started or joined succeeded, and
   then with a token that refresh stored or a newer one; a bearer token is always one the store held.
   */
  lemma SentAtMostTwice(s0: State, events: seq<Event>, id: nat)
    requires Initial(s0) && id < |Run(s0, events).calls|
    ensures var s := Run(s0, events); var c := s.calls[id];
            && |c.sends| <= 2
            && (forall k :: 0 <= k < |c.sends| && c.sends[k].Bearer? ==>
                  c.sends[k].version < |s.pairs| && c.sends[k].token == s.pairs[c.sends[k].version].accessToken)
            && (|c.sends| == 2 ==>
                  && c.joined.Some? && c.joined.value < |s.refreshes|
                  && s.refreshes[c.joined.value].stage.Resolved?
                  && c.sends[1].Bearer? && s.refreshes[c.joined.value].stage.written <= c.sends[1].version)
  {
    RunKeepsInv(s0, events);
    var s := Run(s0, events);
    assert CallOk(s, s.calls[id]);
    assert forall k :: 0 <= k < |s.calls[id].sends| ==> SendOk(s, s.calls[id].sends[k]);
  }

  /**
   When a refresh fails, its starter and everyone who joined it fail with its error, unsent again, as soon as they
   resume; and the mutex is no longer theirs.
   */
  lemma FailedRefreshFailsItsRequests(s0: State, events: seq<Event>, id: nat)
    requires Initial(s0) && id < |Run(s0, events).calls|
    requires var s := Run(s0, events); var c := s.calls[id];
             c.joined.Some? && c.joined.value < |s.refreshes| && s.refreshes[c.joined.value].stage.Rejected?
    ensures var s := Run(s0, events); var c := s.calls[id];
            && |c.sends| == 1 && s.inFlight != c.joined
            && (c.at.Awaiting? || c.at == Finished(Failed(s.refreshes[c.joined.value].stage.failure)))
            && (c.at.Awaiting? ==>
                  Apply(s, Resume(id)).calls[id].at == Finished(Failed(s.refreshes[c.joined.value].stage.failure)))
  {
    RunKeepsInv(s0, events);
    assert CallOk(Run(s0, events), Run(s0, events).calls[id]);
  }

  /** What the caller of `get` or `post` gets for the outcome of a request. */
  datatype Result = AuthFailed | HttpError(status: int) | Body | Rejection(failure: Failure)

  function ResultFor(outcome: Outcome): Result {
    match outcome
    case Failed(failure) => Rejection(failure)
    case Responded(status) =>
      if status == UNAUTHORIZED then AuthFailed
      else if 200 <= status < 300 then Body
      else HttpError(status)
  }

  /**
   A caller of an OAuth client is told that authentication failed only after the pair was refreshed and the request,
   sent again with what that refresh stored or something newer, was refused a second time.
   */
  lemma AuthFailureComesFromTheReplay(s0: State, events: seq<Event>, id: nat)
    requires Initial(s0) && id < |Run(s0, events).calls| && Run(s0, events).mode == OAuth
    requires Run(s0, events).calls[id].at.Finished? && ResultFor(Run(s0, events).calls[id].at.outcome) == AuthFailed
    ensures var s := Run(s0, events); var c := s.calls[id];
            && |c.sends| == 2 && c.joined.Some? && c.joined.value < |s.refreshes|
            && s.refreshes[c.joined.value].stage.Resolved?
            && c.sends[1].Bearer? && s.refreshes[c.joined.value].stage.written <= c.sends[1].version
  {
    RunKeepsInv(s0, events);
    assert CallOk(Run(s0, events), Run(s0, events).calls[id]);
  }

  /** Missing credentials stop a request before it is sent, never between its two attempts. */
  lemma CredentialIsMissedOnlyAtTheStart(s0: State, events: seq<Event>, id: nat)
    requires Initial(s0) && id < |Run(s0, events).calls|
    ensures var c := Run(s0, events).calls[id];
            c.at == Finished(Failed(NoCredential)) <==> c.sends == []
  {
    RunKeepsInv(s0, events);
    assert CallOk(Run(s0, events), Run(s0, events).calls[id]);
  }

  function Starters(refreshes: seq<Refresh>): set<nat> {
    set r | 0 <= r < |refreshes| :: refreshes[r].starter
  }

  lemma {:induction false} AsManyStarters(refreshes: seq<Refresh>)
    requires forall i, j :: 0 <= i < j < |refreshes| ==> refreshes[i].starter != refreshes[j].starter
    ensures |Starters(refreshes)| == |refreshes|
  {
    if refreshes != [] {
      var n := |refreshes| - 1;
      var before := refreshes[..n];
      AsManyStarters(before);
      assert Starters(refreshes) == Starters(before) + {refreshes[n].starter} by {
        assert forall r :: 0 <= r < n ==> before[r] == refreshes[r];
      }
      assert refreshes[n].starter !in Starters(before);
    }
  }

  lemma {:induction false} AtMost(ids: set<nat>, n: nat)
    requires forall id :: id in ids ==> id < n
    ensures |ids| <= n
  {
    if n == 0 {
      assert ids == {};
    } else {
      AtMost(ids - {n - 1}, n - 1);
    }
  }

  /** Every refresh has its own starter, so requests cause at most as many refreshes. */
  lemma RefreshesNeverOutnumberRequests(s0: State, events: seq<Event>)
    requires Initial(s0)
    ensures |Run(s0, events).refreshes| <= |Run(s0, events).calls|
  {
    RunKeepsInv(s0, events);
    var s := Run(s0, events);
    AsManyStarters(s.refreshes);
    AtMost(Starters(s.refreshes), |s.calls|);
  }

  lemma RefreshMeansOAuth(s: State)
    requires Inv(s)
    ensures s.refreshes != [] ==> s.mode == OAuth
  {
    if s.refreshes != [] {
      assert CallOk(s, s.calls[s.refreshes[0].starter]);
    }
  }

  /** Without OAuth nothing is ever refreshed or sent again. */
  lemma BasicNeverRefreshes(s0: State, events: seq<Event>)
    requires Initial(s0) && Run(s0, events).mode != OAuth
    ensures var s := Run(s0, events);
            s.refreshes == [] && s.inFlight == None && forall id :: 0 <= id < |s.calls| ==> |s.calls[id].sends| <= 1
  {
    RunKeepsInv(s0, events);
    InFlightExists(s0, events);
    var s := Run(s0, events);
    RefreshMeansOAuth(s);
    forall id | 0 <= id < |s.calls|
      ensures |s.calls[id].sends| <= 1
    {
      assert CallOk(s, s.calls[id]);
    }
  }

  // Conservation of rotations

  function Rotations(pairs: seq<TokenPair>): nat {
    if pairs == [] then 0
    else Rotations(pairs[..|pairs| - 1]) + if pairs[|pairs| - 1].origin == Rotated then 1 else 0
  }

  function Successes(refreshes: seq<Refresh>): nat {
    if refreshes == [] then 0
    else Successes(refreshes[..|refreshes| - 1]) + if Succeeded(refreshes[|refreshes| - 1].stage) then 1 else 0
  }

  lemma {:induction false} SuccessesUpdate(refreshes: seq<Refresh>, r: nat, f: Refresh)
    requires r < |refreshes|
    ensures Successes(refreshes[r := f])
            == Successes(refreshes) - (if Succeeded(refreshes[r].stage) then 1 else 0)
              + (if Succeeded(f.stage) then 1 else 0)
  {
    var n := |refreshes| - 1;
    if r == n {
      assert refreshes[r := f][..n] == refreshes[..n];
    } else {
      assert refreshes[r := f][..n] == refreshes[..n][r := f];
      SuccessesUpdate(refreshes[..n], r, f);
    }
  }

  lemma RefreshesAfter(s: State, e: Event, t: State)
    requires t == Apply(s, e)
    ensures || t.refreshes == s.refreshes
            || (|t.refreshes| == |s.refreshes| + 1 && t.refreshes[..|s.refreshes|] == s.refreshes
                && !Succeeded(t.refreshes[|s.refreshes|].stage))
            || exists r, f :: 0 <= r < |s.refreshes| && t.refreshes == s.refreshes[r := f]
                              && (Succeeded(f.stage) <==> Succeeded(s.refreshes[r].stage) || Rotates(s, e))
                              && (Rotates(s, e) ==> !Succeeded(s.refreshes[r].stage))
  {
  }

  /** The step stores the pair a refresh brought. */
  predicate Rotates(s: State, e: Event) {
    e.BodyRead? && Enabled(s, e) && e.body.Some? && s.pairs != []
  }

  /** Every rotated pair in the store is the work of one successful refresh, and no success is lost. */
  lemma {:induction false} EveryRotationIsOneRefresh(s0: State, events: seq<Event>)
    requires Initial(s0)
    ensures var s := Run(s0, events); Rotations(s.pairs) == Successes(s.refreshes)
  {
    if events == [] {
      NoRotations(s0.pairs);
    } else {
      var n := |events| - 1;
      var s, t := Run(s0, events[..n]), Run(s0, events);
      EveryRotationIsOneRefresh(s0, events[..n]);
      StepConservesRotations(s, events[n], t);
    }
  }

  lemma {:induction false} NoRotations(pairs: seq<TokenPair>)
    requires forall k :: 0 <= k < |pairs| ==> pairs[k].origin == Connected
    ensures Rotations(pairs) == 0
  {
    if pairs != [] {
      NoRotations(pairs[..|pairs| - 1]);
    }
  }

  lemma PairsAfter(s: State, e: Event, t: State)
    requires t == Apply(s, e)
    ensures Rotations(t.pairs) == Rotations(s.pairs) + if Rotates(s, e) then 1 else 0
  {
    if t.pairs != s.pairs {
      assert t.pairs[..|s.pairs|] == s.pairs;
    }
  }

  lemma StepConservesRotations(s: State, e: Event, t: State)
    requires t == Apply(s, e) && Rotations(s.pairs) == Successes(s.refreshes)
    ensures Rotations(t.pairs) == Successes(t.refreshes)
  {
    PairsAfter(s, e, t);
    RefreshesAfter(s, e, t);
    if r, f :| 0 <= r < |s.refreshes| && t.refreshes == s.refreshes[r := f]
               && (Succeeded(f.stage) <==> Succeeded(s.refreshes[r].stage) || Rotates(s, e))
               && (Rotates(s, e) ==> !Succeeded(s.refreshes[r].stage))
    {
      SuccessesUpdate(s.refreshes, r, f);
    }
  }

  // How many posts a burst of 401s causes

  /** While a refresh is in flight, until it settles, whatever happens posts no other. */
  lemma {:induction false} NoPostWhileInFlight(s: State, events: seq<Event>)
    requires s.inFlight.Some? && Settle(s.inFlight.value) !in events
    requires Inv(s) && s.inFlight.value < |s.refreshes|
    ensures var t := Run(s, events);
            t.inFlight == s.inFlight && |t.refreshes| == |s.refreshes| && Inv(t)
  {
    if events != [] {
      var n := |events| - 1;
      NoPostWhileInFlight(s, events[..n]);
      var t := Run(s, events[..n]);
      StepKeepsInv(t, events[n]);
      assert events[n] != Settle(s.inFlight.value);
    }
  }

  /** A step posts a refresh exactly when it is a first 401 of an OAuth request arriving while the mutex is free. */
  lemma PostsExactlyWhenFree(s: State, e: Event)
    ensures |Apply(s, e).refreshes| == |s.refreshes| + (
              if && e.Respond? && Enabled(s, e) && e.status == 401 && |s.calls[e.id].sends| == 1 && s.mode == OAuth
                 && s.inFlight == None && s.pairs != []
              then 1 else 0)
  {
  }

  /**
   So one post per burst is not what happens when a 401 arrives late: a request that was sent with a token already
   replaced refreshes the pair again.
   */
  lemma LateUnauthorizedPostsAgain(s: State, id: nat)
    requires Inv(s) && Enabled(s, Respond(id, UNAUTHORIZED)) && Refreshes(s, id, UNAUTHORIZED)
    requires s.inFlight == None && s.calls[id].sends[0].Bearer? && s.calls[id].sends[0].version < |s.pairs| - 1
    ensures var t := Apply(s, Respond(id, UNAUTHORIZED)); var last := |s.pairs| - 1;
            && t.refreshes == s.refreshes + [Refresh(id, s.pairs[last].refreshToken, last, Posted)]
            && t.inFlight == Some(|s.refreshes|) && t.calls[id].joined == Some(|s.refreshes|)
  {
    assert CallOk(s, s.calls[id]);
  }

  lemma RunOfThree(s: State, a: Event, b: Event, c: Event)
    ensures Run(s, [a, b, c]) == Apply(Apply(Apply(s, a), b), c)
  {
    assert [a, b, c][..2] == [a, b] && [a, b][..1] == [a] && [a][..0] == [];
    assert Run(s, [a]) == Apply(s, a);
    assert Run(s, [a, b]) == Apply(Apply(s, a), b);
  }

  lemma {:induction false} RunConcat(s: State, a: seq<Event>, b: seq<Event>)
    ensures Run(s, a + b) == Run(Run(s, a), b)
  {
    if b == [] {
      assert a + b == a;
    } else {
      assert (a + b)[..|a + b| - 1] == a + b[..|b| - 1];
      RunConcat(s, a, b[..|b| - 1]);
    }
  }

  function Midway(accessToken: string, refreshToken: string): State {
    var h := Bearer(accessToken, 0);
    State(OAuth, [TokenPair(accessToken, refreshToken, Connected)], None, Some(0),
          [Refresh(0, refreshToken, 0, Posted)],
          [Call([h], Some(0), Awaiting), Call([h], None, Fetching)])
  }

  lemma FirstUnauthorized(accessToken: string, refreshToken: string)
    ensures var s0 := State(OAuth, [TokenPair(accessToken, refreshToken, Connected)], None, None, [], []);
            Run(s0, [Begin, Begin, Respond(0, UNAUTHORIZED)]) == Midway(accessToken, refreshToken)
  {
    var s0 := State(OAuth, [TokenPair(accessToken, refreshToken, Connected)], None, None, [], []);
    RunOfThree(s0, Begin, Begin, Respond(0, UNAUTHORIZED));
    var c := Call([Bearer(accessToken, 0)], None, Fetching);
    assert SendNow(s0, Call([], None, Fetching)).sends == [Bearer(accessToken, 0)];
    var two := Apply(Apply(s0, Begin), Begin);
    assert two.calls == [c, c];
    assert two == s0.(calls := [c, c]);
    assert Apply(two, Respond(0, UNAUTHORIZED)).calls == Midway(accessToken, refreshToken).calls;
  }

  lemma RefreshSettles(accessToken: string, refreshToken: string)
    ensures var s := Midway(accessToken, refreshToken);
            var t := Run(s, [PostAnswered(0, true), BodyRead(0, Some(("a", "r"))), Settle(0)]);
            t == s.(pairs := s.pairs + [TokenPair("a", "r", Rotated)], inFlight := None,
                    refreshes := [Refresh(0, refreshToken, 0, Resolved(1))])
  {
    RunOfThree(Midway(accessToken, refreshToken), PostAnswered(0, true), BodyRead(0, Some(("a", "r"))), Settle(0));
  }

  /** Two requests sent together, whose second 401 arrives after the refresh has settled, cause two posts. */
  lemma LateUnauthorizedHappens(accessToken: string, refreshToken: string)
    ensures var s0 := State(OAuth, [TokenPair(accessToken, refreshToken, Connected)], None, None, [], []);
            var s := Run(s0, [Begin, Begin, Respond(0, UNAUTHORIZED), PostAnswered(0, true),
                              BodyRead(0, Some(("a", "r"))), Settle(0), Respond(1, UNAUTHORIZED)]);
            && Initial(s0) && |s.refreshes| == 2 && |s.calls| == 2
            && s.calls[0].sends == s.calls[1].sends == [Bearer(accessToken, 0)]
  {
    var s0 := State(OAuth, [TokenPair(accessToken, refreshToken, Connected)], None, None, [], []);
    var first: seq<Event> := [Begin, Begin, Respond(0, UNAUTHORIZED)];
    var second := [PostAnswered(0, true), BodyRead(0, Some(("a", "r"))), Settle(0)];
    FirstUnauthorized(accessToken, refreshToken);
    RefreshSettles(accessToken, refreshToken);
    RunConcat(s0, first, second);
    RunConcat(s0, first + second, [Respond(1, UNAUTHORIZED)]);
    assert [Respond(1, UNAUTHORIZED)][..0] == [];
    assert first + second + [Respond(1, UNAUTHORIZED)]
           == [Begin, Begin, Respond(0, UNAUTHORIZED), PostAnswered(0, true),
               BodyRead(0, Some(("a", "r"))), Settle(0), Respond(1, UNAUTHORIZED)];
  }

  // Progress

  /** Steps the client itself takes or owes to an answer of the network. */
  predicate Internal(e: Event) {
    !e.Begin? && !e.Connect? && !e.ConnectApiToken?
  }

  /** The steps a request may still take, counting those of the refresh it may yet start. */
  function CallWork(c: Call): nat {
    match c.at
    case Finished(_) => 0
    case Awaiting => 2
    case Fetching => if |c.sends| == 1 then 6 else 1
  }

  function RefreshWork(f: Refresh): nat {
    match f.stage
    case Posted => 3
    case ReadingBody => 2
    case ReadingError => 2
    case Stored(_) => 1
    case Broken(_) => 1
    case Resolved(_) => 0
    case Rejected(_) => 0
  }

  function CallsWork(calls: seq<Call>): nat {
    if calls == [] then 0 else CallsWork(calls[..|calls| - 1]) + CallWork(calls[|calls| - 1])
  }

  function RefreshesWork(refreshes: seq<Refresh>): nat {
    if refreshes == [] then 0 else RefreshesWork(refreshes[..|refreshes| - 1]) + RefreshWork(refreshes[|refreshes| - 1])
  }

  function Work(s: State): nat {
    CallsWork(s.calls) + RefreshesWork(s.refreshes)
  }

  lemma {:induction false} CallsWorkUpdate(calls: seq<Call>, id: nat, c: Call)
    requires id < |calls|
    ensures CallsWork(calls[id := c]) == CallsWork(calls) - CallWork(calls[id]) + CallWork(c)
  {
    var n := |calls| - 1;
    if id == n {
      assert calls[id := c][..n] == calls[..n];
    } else {
      assert calls[id := c][..n] == calls[..n][id := c];
      CallsWorkUpdate(calls[..n], id, c);
    }
  }

  lemma {:induction false} RefreshesWorkUpdate(refreshes: seq<Refresh>, r: nat, f: Refresh)
    requires r < |refreshes|
    ensures RefreshesWork(refreshes[r := f]) == RefreshesWork(refreshes) - RefreshWork(refreshes[r]) + RefreshWork(f)
  {
    var n := |refreshes| - 1;
    if r == n {
      assert refreshes[r := f][..n] == refreshes[..n];
    } else {
      assert refreshes[r := f][..n] == refreshes[..n][r := f];
      RefreshesWorkUpdate(refreshes[..n], r, f);
    }
  }

  lemma CallStepWorks(s: State, id: nat, c: Call)
    requires id < |s.calls| && CallWork(c) < CallWork(s.calls[id])
    ensures Work(WithCall(s, id, c)) < Work(s)
  {
    CallsWorkUpdate(s.calls, id, c);
  }

  lemma RefreshStepWorks(s: State, r: nat, stage: Stage)
    requires r < |s.refreshes|
    requires RefreshWork(s.refreshes[r].(stage := stage)) < RefreshWork(s.refreshes[r])
    ensures Work(AtStage(s, r, stage)) < Work(s)
  {
    RefreshesWorkUpdate(s.refreshes, r, s.refreshes[r].(stage := stage));
  }

  lemma JoinOrStartWorks(s: State, id: nat)
    requires id < |s.calls| && s.calls[id].at.Fetching? && |s.calls[id].sends| == 1
    ensures Work(JoinOrStart(s, id)) < Work(s)
  {
    var t := JoinOrStart(s, id);
    CallsWorkUpdate(s.calls, id, t.calls[id]);
    if s.pairs != [] && s.inFlight == None {
      assert t.refreshes[..|s.refreshes|] == s.refreshes;
    }
  }

  /** Every enabled internal step uses up some of the work left. */
  lemma InternalStepWorks(s: State, e: Event)
    requires Inv(s) && Internal(e) && Enabled(s, e)
    ensures Work(Apply(s, e)) < Work(s)
  {
    match e
    case FetchRejected(id) => CallStepWorks(s, id, s.calls[id].(at := Finished(Failed(FetchFailed))));
    case Respond(id, status) =>
      if Refreshes(s, id, status) {
        JoinOrStartWorks(s, id);
      } else {
        CallStepWorks(s, id, s.calls[id].(at := Finished(Responded(status))));
      }
    case PostRejected(r) => RefreshStepWorks(s, r, Broken(RefreshNetworkError));
    case PostAnswered(r, ok) => RefreshStepWorks(s, r, if ok then ReadingBody else ReadingError);
    case BodyRead(r, body) =>
      if body == None {
        RefreshStepWorks(s, r, Broken(BodyUnreadable));
      } else {
        RefreshStepWorks(s, r, if s.pairs == [] then Broken(RotationFailed) else Stored(|s.pairs|));
      }
    case ErrorRead(r, readable) => RefreshStepWorks(s, r, Broken(if readable then RefreshFailed else BodyUnreadable));
    case Settle(r) => RefreshStepWorks(s, r, SettleRefresh(s, r).refreshes[r].stage);
    case Resume(id) =>
      assert CallOk(s, s.calls[id]);
      CallStepWorks(s, id, Apply(s, e).calls[id]);
  }

  /** The steps of a run that changed something, other than beginnings and connections. */
  function Effective(s: State, events: seq<Event>): nat {
    if events == [] then 0
    else
      var n := |events| - 1;
      Effective(s, events[..n]) + if Internal(events[n]) && Enabled(Run(s, events[..n]), events[n]) then 1 else 0
  }

  lemma ExternalStepWork(s: State, e: Event)
    requires !Internal(e)
    ensures Work(Apply(s, e)) <= Work(s) + if e.Begin? then 6 else 0
    ensures |Apply(s, e).calls| == |s.calls| + if e.Begin? then 1 else 0
  {
    if e.Begin? {
      assert Apply(s, e).calls[..|s.calls|] == s.calls;
    }
  }

  lemma InternalStepKeepsCalls(s: State, e: Event)
    requires Internal(e)
    ensures |Apply(s, e).calls| == |s.calls|
  {
  }

  /** Requests cannot keep each other busy: however they interleave, N of them take at most 6N steps in all. */
  lemma {:induction false} RequestsTakeBoundedSteps(s0: State, events: seq<Event>)
    requires Initial(s0)
    ensures Effective(s0, events) + Work(Run(s0, events)) <= 6 * |Run(s0, events).calls|
  {
    if events != [] {
      var n := |events| - 1;
      RequestsTakeBoundedSteps(s0, events[..n]);
      RunKeepsInv(s0, events[..n]);
      var s, e := Run(s0, events[..n]), events[n];
      if !Internal(e) {
        ExternalStepWork(s, e);
      } else {
        InternalStepKeepsCalls(s, e);
        if Enabled(s, e) {
          InternalStepWorks(s, e);
        }
      }
    }
  }

  /** A step of the request `id` itself, or of the refresh it waits for. */
  predicate StepOf(s: State, id: nat, e: Event)
    requires id < |s.calls|
  {
    match e
    case FetchRejected(k) => k == id
    case Respond(k, _) => k == id
    case Resume(k) => k == id
    case PostRejected(r) => s.calls[id].joined == Some(r)
    case PostAnswered(r, _) => s.calls[id].joined == Some(r)
    case BodyRead(r, _) => s.calls[id].joined == Some(r)
    case ErrorRead(r, _) => s.calls[id].joined == Some(r)
    case Settle(r) => s.calls[id].joined == Some(r)
    case _ => false
  }

  /** No deadlock: for a request that has not finished, it or the refresh it waits for has a step that can happen. */
  lemma UnfinishedRequestCanProceed(s0: State, events: seq<Event>, id: nat) returns (e: Event)
    requires Initial(s0) && id < |Run(s0, events).calls| && !Run(s0, events).calls[id].at.Finished?
    ensures Internal(e) && Enabled(Run(s0, events), e) && StepOf(Run(s0, events), id, e)
  {
    RunKeepsInv(s0, events);
    var s := Run(s0, events);
    var c := s.calls[id];
    assert CallOk(s, c);
    if c.at.Fetching? {
      e := FetchRejected(id);
    } else {
      var r := c.joined.value;
      match s.refreshes[r].stage
      case Posted => e := PostRejected(r);
      case ReadingBody => e := BodyRead(r, None);
      case ReadingError => e := ErrorRead(r, true);
      case Stored(_) => e := Settle(r);
      case Broken(_) => e := Settle(r);
      case Resolved(_) => e := Resume(id);
      case Rejected(_) => e := Resume(id);
    }
  }
}
