/**
 The credential table (src/db/JiraCredentialRepository.ts): one row per cloud id and connector type.
 An OAuth row is modelled by the list of all token pairs it ever held, the last being the stored one, so that
 a position in the list names one write of the pair.
 */
module Credentials {
  import opened Common

  /** Which statement wrote the pair: the upsert of a (re)connection, or a rotation. */
  datatype Origin = Connected | Rotated

  datatype TokenPair = TokenPair(accessToken: string, refreshToken: string, origin: Origin)

  datatype BasicAuth = BasicAuth(email: string, apiToken: string)

  class JiraCredentialRepository {
    var oauthRows: map<string, seq<TokenPair>>
    var apiTokenRows: map<string, BasicAuth>

    constructor ()
      ensures oauthRows == map[] && apiTokenRows == map[]
    {
      oauthRows := map[];
      apiTokenRows := map[];
    }

    /** Every pair written for a cloud id; empty when it has no row. */
    function Pairs(cloudId: string): seq<TokenPair>
      reads this
    {
      if cloudId in oauthRows then oauthRows[cloudId] else []
    }

    function ApiToken(cloudId: string): Option<BasicAuth>
      reads this
    {
      if cloudId in apiTokenRows then Some(apiTokenRows[cloudId]) else None
    }

    method GetByCloudId(cloudId: string) returns (pair: Option<TokenPair>)
      ensures pair == if Pairs(cloudId) == [] then None else Some(Pairs(cloudId)[|Pairs(cloudId)| - 1])
    {
      if cloudId !in oauthRows || |oauthRows[cloudId]| == 0 {
        return None;
      }
      pair := Some(oauthRows[cloudId][|oauthRows[cloudId]| - 1]);
    }

    method GetApiTokenByCloudId(cloudId: string) returns (auth: Option<BasicAuth>)
      ensures auth == ApiToken(cloudId)
    {
      auth := if cloudId in apiTokenRows then Some(apiTokenRows[cloudId]) else None;
    }

    method UpsertConnection(cloudId: string, accessToken: string, refreshToken: string)
      modifies this`oauthRows
      ensures oauthRows
              == old(oauthRows)[cloudId := old(Pairs(cloudId)) + [TokenPair(accessToken, refreshToken, Connected)]]
    {
      oauthRows := oauthRows[cloudId := Pairs(cloudId) + [TokenPair(accessToken, refreshToken, Connected)]];
    }

    method UpsertApiTokenConnection(cloudId: string, auth: BasicAuth)
      modifies this`apiTokenRows
      ensures apiTokenRows == old(apiTokenRows)[cloudId := auth]
    {
      apiTokenRows := apiTokenRows[cloudId := auth];
    }

    /** Writes both tokens at once; fails, writing nothing, when there is no row. */
    method RotateTokens(cloudId: string, accessToken: string, refreshToken: string) returns (ok: bool)
      modifies this`oauthRows
      ensures ok <==> old(Pairs(cloudId)) != []
      ensures oauthRows == if ok
                           then old(oauthRows)[cloudId := old(Pairs(cloudId))
                                               + [TokenPair(accessToken, refreshToken, Rotated)]]
                           else old(oauthRows)
    {
      if Pairs(cloudId) == [] {
        return false;
      }
      oauthRows := oauthRows[cloudId := Pairs(cloudId) + [TokenPair(accessToken, refreshToken, Rotated)]];
      ok := true;
    }
  }
}
