/**
 The client of src/http/JiraHttpClient.ts. Its methods are the stretches of `execute`, `ensureTokenRefreshed` and
 `doRefresh` between two awaits; the requests and refreshes suspended at an await are fields. Each method takes the
 step of the same name of the protocol.
 */
module HttpClient {
  import opened Common
  import opened Credentials
  import opened RefreshProtocol

  datatype ConnectorType = Jira | ApiTokenConnector

  class JiraHttpClient {
    const cloudId: string
    const repo: JiraCredentialRepository
    const connectorType: ConnectorType
    const explicitBasicAuth: Option<BasicAuth>
    var refreshInFlight: Option<nat>
    var refreshes: seq<Refresh>
    var calls: seq<Call>

    constructor (cloudId: string, repo: JiraCredentialRepository, connectorType: ConnectorType,
                 explicitBasicAuth: Option<BasicAuth>)
      ensures this.cloudId == cloudId && this.repo == repo
      ensures this.connectorType == connectorType && this.explicitBasicAuth == explicitBasicAuth
      ensures Model() == State(ModeOf(connectorType, explicitBasicAuth), repo.Pairs(cloudId), repo.ApiToken(cloudId),
                               None, [], [])
    {
      this.cloudId := cloudId;
      this.repo := repo;
      this.connectorType := connectorType;
      this.explicitBasicAuth := explicitBasicAuth;
      refreshInFlight := None;
      refreshes := [];
      calls := [];
    }

    static function ModeOf(connectorType: ConnectorType, explicitBasicAuth: Option<BasicAuth>): Mode {
      if explicitBasicAuth.Some? then Explicit(explicitBasicAuth.value)
      else if connectorType == ApiTokenConnector then ByApiToken
      else OAuth
    }

    ghost function Model(): State
      reads this, repo
    {
      State(ModeOf(connectorType, explicitBasicAuth), repo.Pairs(cloudId), repo.ApiToken(cloudId),
            refreshInFlight, refreshes, calls)
    }

    method GetAuthHeader() returns (header: Option<Header>)
      ensures header == AuthHeader(Model())
      ensures explicitBasicAuth.Some? ==> header == Some(Basic(explicitBasicAuth.value))
      ensures explicitBasicAuth == None && connectorType == ApiTokenConnector ==>
                header == if repo.ApiToken(cloudId) == None then None else Some(Basic(repo.ApiToken(cloudId).value))
      ensures explicitBasicAuth == None && connectorType == Jira ==>
                var pairs := repo.Pairs(cloudId);
                header == if pairs == [] then None else Some(Bearer(pairs[|pairs| - 1].accessToken, |pairs| - 1))
    {
      if explicitBasicAuth.Some? {
        return Some(Basic(explicitBasicAuth.value));
      }
      if connectorType == ApiTokenConnector {
        var auth := repo.GetApiTokenByCloudId(cloudId);
        return if auth == None then None else Some(Basic(auth.value));
      }
      var pair := repo.GetByCloudId(cloudId);
      header := if pair == None then None
                else Some(Bearer(pair.value.accessToken, |repo.Pairs(cloudId)| - 1));
    }

    /** From the start of `execute` to its fetch. */
    method Send(call: Call) returns (sent: Call)
      ensures sent == SendNow(Model(), call)
    {
      var header := GetAuthHeader();
      if header == None {
        return call.(at := Finished(Failed(NoCredential)));
      }
      sent := call.(sends := call.sends + [header.value], at := Fetching);
    }

    method Execute()
      modifies this
      ensures Model() == Apply(old(Model()), Begin)
    {
      var call := Send(Call([], None, Fetching));
      calls := calls + [call];
    }

    method OnFetchRejected(id: nat)
      requires Enabled(Model(), FetchRejected(id))
      modifies this
      ensures Model() == Apply(old(Model()), FetchRejected(id))
    {
      calls := calls[id := calls[id].(at := Finished(Failed(FetchFailed)))];
    }

    /** From the response to the end of the request, or to the await on the refresh. */
    method OnResponse(id: nat, status: int)
      requires Enabled(Model(), Respond(id, status))
      modifies this
      ensures Model() == Apply(old(Model()), Respond(id, status))
    {
      var isRetry := |calls[id].sends| != 1;
      if status == UNAUTHORIZED && !isRetry && explicitBasicAuth == None && connectorType == Jira {
        var pair := repo.GetByCloudId(cloudId);
        if pair == None {
          calls := calls[id := calls[id].(at := Finished(Failed(NoCredential)))];
          return;
        }
        EnsureTokenRefreshed(id, pair.value.refreshToken);
        return;
      }
      calls := calls[id := calls[id].(at := Finished(Responded(status)))];
    }

    /** Awaits the refresh in flight, or takes the mutex and posts one. */
    method EnsureTokenRefreshed(id: nat, refreshToken: string)
      requires id < |calls| && repo.Pairs(cloudId) != []
      requires refreshToken == repo.Pairs(cloudId)[|repo.Pairs(cloudId)| - 1].refreshToken
      modifies this
      ensures Model() == JoinOrStart(old(Model()), id)
    {
      if refreshInFlight != None {
        calls := calls[id := calls[id].(joined := refreshInFlight, at := Awaiting)];
        return;
      }
      var r := |refreshes|;
      refreshInFlight := Some(r);
      refreshes := refreshes + [Refresh(id, refreshToken, |repo.Pairs(cloudId)| - 1, Posted)];
      calls := calls[id := calls[id].(joined := Some(r), at := Awaiting)];
    }

    method SetStage(r: nat, stage: Stage)
      requires r < |refreshes|
      modifies this`refreshes
      ensures Model() == AtStage(old(Model()), r, stage)
    {
      refreshes := refreshes[r := refreshes[r].(stage := stage)];
    }

    method OnPostRejected(r: nat)
      requires Enabled(Model(), PostRejected(r))
      modifies this`refreshes
      ensures Model() == Apply(old(Model()), PostRejected(r))
    {
      SetStage(r, Broken(RefreshNetworkError));
    }

    method OnPostAnswered(r: nat, ok: bool)
      requires Enabled(Model(), PostAnswered(r, ok))
      modifies this`refreshes
      ensures Model() == Apply(old(Model()), PostAnswered(r, ok))
    {
      if !ok {
        SetStage(r, ReadingError);
      } else {
        SetStage(r, ReadingBody);
      }
    }

    method OnErrorText(r: nat, readable: bool)
      requires Enabled(Model(), ErrorRead(r, readable))
      modifies this`refreshes
      ensures Model() == Apply(old(Model()), ErrorRead(r, readable))
    {
      SetStage(r, Broken(if readable then RefreshFailed else BodyUnreadable));
    }

    /** Stores both tokens before anyone waiting can go on. */
    method OnBody(r: nat, body: Option<(string, string)>)
      requires Enabled(Model(), BodyRead(r, body))
      modifies this`refreshes, repo
      ensures Model() == Apply(old(Model()), BodyRead(r, body))
    {
      if body == None {
        SetStage(r, Broken(BodyUnreadable));
        return;
      }
      var ok := repo.RotateTokens(cloudId, body.value.0, body.value.1);
      if ok {
        SetStage(r, Stored(|repo.Pairs(cloudId)| - 1));
      } else {
        SetStage(r, Broken(RotationFailed));
      }
    }

    /** Settles the promise and, in the `finally` block, frees the mutex. */
    method OnRefreshDone(r: nat)
      requires Enabled(Model(), Settle(r))
      modifies this
      ensures Model() == Apply(old(Model()), Settle(r))
    {
      match refreshes[r].stage {
        case Stored(written) => SetStage(r, Resolved(written));
        case Broken(failure) => SetStage(r, Rejected(failure));
      }
      refreshInFlight := None;
    }

    /** After the await on the refresh: the request is sent again, or fails as the refresh did. */
    method OnRefreshSettled(id: nat)
      requires Enabled(Model(), Resume(id))
      modifies this
      ensures Model() == Apply(old(Model()), Resume(id))
    {
      match refreshes[calls[id].joined.value].stage {
        case Resolved(_) =>
          var call := Send(calls[id]);
          calls := calls[id := call];
        case Rejected(failure) =>
          calls := calls[id := calls[id].(at := Finished(Failed(failure)))];
      }
    }
  }

  /** The event loop takes one step: it calls back into the client, or other code stores a connection. */
  method TakeStep(client: JiraHttpClient, e: Event)
    modifies client, client.repo
    ensures client.Model() == Apply(old(client.Model()), e)
  {
    if e.Connect? {
      client.repo.UpsertConnection(client.cloudId, e.accessToken, e.refreshToken);
    } else if e.ConnectApiToken? {
      client.repo.UpsertApiTokenConnection(client.cloudId, e.auth);
    } else {
      CallBack(client, e);
    }
  }

  /** A callback runs only where something is suspended for it. */
  method CallBack(client: JiraHttpClient, e: Event)
    requires !e.Connect? && !e.ConnectApiToken?
    modifies client, client.repo
    ensures client.Model() == Apply(old(client.Model()), e)
  {
    var enabled := CanTake(client, e);
    if !enabled {
      return;
    }
    match e {
      case Begin => client.Execute();
      case FetchRejected(id) => client.OnFetchRejected(id);
      case Respond(id, status) => client.OnResponse(id, status);
      case PostRejected(r) => client.OnPostRejected(r);
      case PostAnswered(r, ok) => client.OnPostAnswered(r, ok);
      case BodyRead(r, body) => client.OnBody(r, body);
      case ErrorRead(r, readable) => client.OnErrorText(r, readable);
      case Settle(r) => client.OnRefreshDone(r);
      case Resume(id) => client.OnRefreshSettled(id);
    }
  }

  method CanTake(client: JiraHttpClient, e: Event) returns (b: bool)
    ensures b == Enabled(client.Model(), e)
  {
    b := Enabled(State(JiraHttpClient.ModeOf(client.connectorType, client.explicitBasicAuth),
                       client.repo.Pairs(client.cloudId), client.repo.ApiToken(client.cloudId),
                       client.refreshInFlight, client.refreshes, client.calls), e);
  }

  /** However the event loop interleaves them, the client's methods make a run of the protocol. */
  method Drive(client: JiraHttpClient, events: seq<Event>)
    modifies client, client.repo
    ensures client.Model() == Run(old(client.Model()), events)
  {
    for i := 0 to |events|
      invariant client.Model() == Run(old(client.Model()), events[..i])
    {
      assert events[..i + 1][..i] == events[..i];
      TakeStep(client, events[i]);
    }
    assert events[..|events|] == events;
  }
}
