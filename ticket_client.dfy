// ExternalTicketService: the bot's client for the ticket API. It caches one
// OAuth token with its expiry, fetches a new one with the client-credentials
// grant when the cached one is missing or stale, and re-runs a business call
// once when the server answers 401.
//
// The network is an oracle: what the token endpoint and the ticket endpoint
// answer are parameters, and the requests the client sends are recorded in
// the ghost field `sent`. The clock is a parameter too.

module TicketClient {
  import opened Common
  import opened Models
  import FlowSpec

  // ---------------------------------------------------------------------------
  // Wire data
  // ---------------------------------------------------------------------------

  /** Seconds taken off the token's lifetime so that it is renewed before the server drops it. */
  const ExpiryMarginSeconds: Int32 := 300

  /** The body of `POST /tickets` when it succeeds. */
  datatype CreateTicketResponse = CreateTicketResponse(id: string, message: string)

  /** The deserialized body of a token response; a JSON `null` token is the empty string. */
  datatype TokenBody = TokenBody(accessToken: string, tokenType: string, expiresIn: Int32)

  /** What the token endpoint answered: a status and a body (possibly `null`), or nothing at all. */
  datatype GrantReply = GrantReply(status: int, body: Nullable<TokenBody>) | GrantUnreachable

  /** What a ticket endpoint answered: a status and a deserialized body, or nothing at all. */
  datatype Response<T> = Response(status: int, body: Nullable<T>) | NoResponse

  /** The client id and secret sent with the grant. */
  datatype Credentials = Credentials(clientId: string, clientSecret: string)

  /** The configured id and secret, or the defaults when a setting is missing. */
  function ConfiguredCredentials(clientIdSetting: Nullable<string>, clientSecretSetting: Nullable<string>): (c: Credentials)
    ensures clientIdSetting.Null? ==> c.clientId == "bot-client"
    ensures clientSecretSetting.Null? ==> c.clientSecret == "bot-secret"
    ensures clientIdSetting.Some? ==> c.clientId == clientIdSetting.value
    ensures clientSecretSetting.Some? ==> c.clientSecret == clientSecretSetting.value
  {
    Credentials(
      match clientIdSetting case Some(v) => v case Null => "bot-client",
      match clientSecretSetting case Some(v) => v case Null => "bot-secret")
  }

  /** The business operations the client offers. */
  datatype Call = Create(data: TicketData) | Lookup(ticketId: string)

  /** A request the client puts on the wire, with the `Authorization` header it carried. */
  datatype Request =
    | TokenRequest(grantType: string, clientId: string, clientSecret: string)
    | PostTicket(authorization: Nullable<string>, payload: TicketData)
    | GetTicket(authorization: Nullable<string>, path: string)

  function BearerHeader(token: string): string {
    "Bearer " + token
  }

  function RequestFor(call: Call, authorization: Nullable<string>): Request {
    match call
    case Create(data) => PostTicket(authorization, data)
    case Lookup(id) => GetTicket(authorization, "/tickets/" + id)
  }

  function GrantRequest(creds: Credentials): Request {
    TokenRequest("client_credentials", creds.clientId, creds.clientSecret)
  }

  /** Why a call failed: the exception that reaches the caller. */
  datatype Fault =
    | Unauthorized          // the ticket API rejected the token, also on the retry
    | HttpFailure(status: int)  // `EnsureSuccessStatusCode` on any other non-2xx status
    | NetworkFailure        // no answer at all
    | NoToken               // the grant answered 2xx without a token

  datatype Outcome<T> = Success(value: T) | Failure(fault: Fault)

  /** `HttpResponseMessage.IsSuccessStatusCode`. */
  predicate IsSuccessStatus(status: int) {
    200 <= status <= 299
  }

  /** One run of the operation: the server rejected the token, or the run ended with a result. */
  datatype Attempt<T> = Rejected | Completed(result: Outcome<Nullable<T>>)

  /** The status handling inside the operations of `CreateTicketAsync` and `GetTicketStatusAsync`. */
  function Interpret<T>(call: Call, response: Response<T>): Attempt<T> {
    match response
    case NoResponse => Completed(Failure(NetworkFailure))
    case Response(status, body) =>
      if status == 401 then Rejected
      else if call.Lookup? && status == 404 then Completed(Success(Null))
      else if !IsSuccessStatus(status) then Completed(Failure(HttpFailure(status)))
      else Completed(Success(body))
  }

  // ---------------------------------------------------------------------------
  // The token cache as a value, and what the client does to it
  // ---------------------------------------------------------------------------

  /** `_cachedToken` ("" for null), `_tokenExpiry` and the default `Authorization` header. */
  datatype Cache = Cache(token: string, expiry: int, authorization: Nullable<string>)

  /** No token, expiry at `DateTime.MinValue`, no header. */
  const InitialCache := Cache("", 0, Null)

  /** The cached token may be used without asking for a new one. */
  predicate Usable(c: Cache, now: Instant) {
    c.token != "" && now < c.expiry
  }

  /**
   * `InvalidateAndRefreshTokenAsync` (and `EnsureValidTokenAsync`, which does
   * the same): the new cache, the requests sent and whether a token is in place.
   */
  function Refresh(c: Cache, creds: Credentials, now: Instant, grant: GrantReply): (Cache, seq<Request>, Outcome<()>) {
    if Usable(c, now) then (c.(authorization := Some(BearerHeader(c.token))), [], Success(()))
    else
      var sent := [GrantRequest(creds)];
      match grant
      case GrantUnreachable => (c, sent, Failure(NetworkFailure))
      case GrantReply(status, body) =>
        if !IsSuccessStatus(status) then (c, sent, Failure(HttpFailure(status)))
        else if body.Null? || body.value.accessToken == "" then (c, sent, Failure(NoToken))
        else
          var token := body.value.accessToken;
          (Cache(token, now + SubInt32(body.value.expiresIn, ExpiryMarginSeconds), Some(BearerHeader(token))),
           sent, Success(()))
  }

  /**
   * `ExecuteWithTokenAsync`: make sure there is a token, run the operation, and
   * on a 401 refresh (at `retryAt`) and run it once more. The answers to the
   * two runs are `first` and `second`; `grant` and `retryGrant` answer the two
   * refreshes if they ask.
   */
  function Execute<T>(c: Cache, creds: Credentials, call: Call,
                      now: Instant, grant: GrantReply, first: Response<T>,
                      retryAt: Instant, retryGrant: GrantReply, second: Response<T>)
    : (Cache, seq<Request>, Outcome<Nullable<T>>)
  {
    var (c1, sent1, ready) := Refresh(c, creds, now, grant);
    if ready.Failure? then (c1, sent1, Failure(ready.fault))
    else
      var (c2, sent2, r) := Run(c1, creds, call, first, retryAt, retryGrant, second);
      (c2, sent1 + sent2, r)
  }

  /** The operation with a token in place: one run, and the retry after a 401. */
  function Run<T>(c: Cache, creds: Credentials, call: Call, first: Response<T>,
                  retryAt: Instant, retryGrant: GrantReply, second: Response<T>)
    : (Cache, seq<Request>, Outcome<Nullable<T>>)
  {
    var sent := [RequestFor(call, c.authorization)];
    match Interpret(call, first)
    case Completed(r) => (c, sent, r)
    case Rejected =>
      var (c2, sent2, r) := Retry(c, creds, call, retryAt, retryGrant, second);
      (c2, sent + sent2, r)
  }

  /** After a 401: refresh (not forced: a usable token is kept) and run once more. */
  function Retry<T>(c: Cache, creds: Credentials, call: Call, retryAt: Instant, retryGrant: GrantReply, second: Response<T>)
    : (Cache, seq<Request>, Outcome<Nullable<T>>)
  {
    var (c2, sent2, ready) := Refresh(c, creds, retryAt, retryGrant);
    if ready.Failure? then (c2, sent2, Failure(ready.fault))
    else
      var sent3 := sent2 + [RequestFor(call, c2.authorization)];
      match Interpret(call, second)
      case Completed(r) => (c2, sent3, r)
      case Rejected => (c2, sent3, Failure(Unauthorized))
  }

  /** The business requests (not token requests) in a sequence of requests. */
  function BusinessCalls(sent: seq<Request>): (n: nat)
    ensures n <= |sent|
  {
    if sent == [] then 0
    else (if sent[0].TokenRequest? then 0 else 1) + BusinessCalls(sent[1..])
  }

  // ---------------------------------------------------------------------------
  // The client object
  // ---------------------------------------------------------------------------

  class ExternalTicketService {
    const credentials: Credentials
    var cachedToken: string
    var tokenExpiry: int
    var authorization: Nullable<string>
    /** Every request put on the wire so far, in order. */
    ghost var sent: seq<Request>

    function CacheState(): Cache
      reads this
    {
      Cache(cachedToken, tokenExpiry, authorization)
    }

    constructor (clientIdSetting: Nullable<string>, clientSecretSetting: Nullable<string>)
      ensures credentials == ConfiguredCredentials(clientIdSetting, clientSecretSetting)
      ensures CacheState() == InitialCache && sent == []
    {
      credentials := ConfiguredCredentials(clientIdSetting, clientSecretSetting);
      cachedToken := "";
      tokenExpiry := 0;
      authorization := Null;
      sent := [];
    }

    /** `EnsureValidTokenAsync`: reuse a usable token, otherwise refresh. */
    method EnsureValidToken(now: Instant, grant: GrantReply) returns (r: Outcome<()>)
      modifies this
      ensures var (c, out, res) := Refresh(old(CacheState()), credentials, now, grant);
              CacheState() == c && sent == old(sent) + out && r == res
    {
      if cachedToken != "" && now < tokenExpiry {
        authorization := Some(BearerHeader(cachedToken));
        return Success(());
      }
      r := InvalidateAndRefreshToken(now, grant);
    }

    /** `InvalidateAndRefreshTokenAsync`: the double check, then the grant. */
    method InvalidateAndRefreshToken(now: Instant, grant: GrantReply) returns (r: Outcome<()>)
      modifies this
      ensures var (c, out, res) := Refresh(old(CacheState()), credentials, now, grant);
              CacheState() == c && sent == old(sent) + out && r == res
    {
      if cachedToken != "" && now < tokenExpiry {
        authorization := Some(BearerHeader(cachedToken));
        return Success(());
      }
      sent := sent + [GrantRequest(credentials)];
      match grant {
        case GrantUnreachable =>
          return Failure(NetworkFailure);
        case GrantReply(status, body) =>
          if !IsSuccessStatus(status) {
            return Failure(HttpFailure(status));
          }
          if body.Null? || body.value.accessToken == "" {
            return Failure(NoToken);
          }
          cachedToken := body.value.accessToken;
          tokenExpiry := now + SubInt32(body.value.expiresIn, ExpiryMarginSeconds);
          authorization := Some(BearerHeader(cachedToken));
          return Success(());
      }
    }

    /** Puts the operation's request on the wire with the current header and reads the answer. */
    method Send<T>(call: Call, response: Response<T>) returns (a: Attempt<T>)
      modifies this
      ensures CacheState() == old(CacheState())
      ensures sent == old(sent) + [RequestFor(call, authorization)]
      ensures a == Interpret(call, response)
    {
      sent := sent + [RequestFor(call, authorization)];
      a := Interpret(call, response);
    }

    method ExecuteWithToken<T>(call: Call, now: Instant, grant: GrantReply, first: Response<T>,
                               retryAt: Instant, retryGrant: GrantReply, second: Response<T>)
      returns (r: Outcome<Nullable<T>>)
      modifies this
      ensures var (c, out, res) := Execute(old(CacheState()), credentials, call, now, grant, first, retryAt, retryGrant, second);
              CacheState() == c && sent == old(sent) + out && r == res
    {
      var ready := EnsureValidToken(now, grant);
      if ready.Failure? {
        return Failure(ready.fault);
      }
      ghost var afterGrant := sent;
      r := RunWithRetry(call, first, retryAt, retryGrant, second);
      assert sent == afterGrant + sent[|afterGrant|..];
    }

    /** The operation, and on a 401 the refresh and the second run. */
    method RunWithRetry<T>(call: Call, first: Response<T>, retryAt: Instant, retryGrant: GrantReply, second: Response<T>)
      returns (r: Outcome<Nullable<T>>)
      modifies this
      ensures var (c, out, res) := Run(old(CacheState()), credentials, call, first, retryAt, retryGrant, second);
              CacheState() == c && sent == old(sent) + out && r == res
    {
      var a := Send(call, first);
      if a.Completed? {
        return a.result;
      }
      ghost var afterFirst := sent;
      var ready := InvalidateAndRefreshToken(retryAt, retryGrant);
      if ready.Failure? {
        assert sent == afterFirst + sent[|afterFirst|..];
        return Failure(ready.fault);
      }
      var b := Send(call, second);
      assert sent == afterFirst + sent[|afterFirst|..];
      if b.Completed? {
        return b.result;
      }
      return Failure(Unauthorized);
    }

    /** `CreateTicketAsync`: `POST /tickets` with the draft. */
    method CreateTicket(data: TicketData, now: Instant, grant: GrantReply, first: Response<CreateTicketResponse>,
                        retryAt: Instant, retryGrant: GrantReply, second: Response<CreateTicketResponse>)
      returns (r: Outcome<Nullable<CreateTicketResponse>>)
      modifies this
      ensures var (c, out, res) := Execute(old(CacheState()), credentials, Create(data), now, grant, first, retryAt, retryGrant, second);
              CacheState() == c && sent == old(sent) + out && r == res
    {
      r := ExecuteWithToken(Create(data), now, grant, first, retryAt, retryGrant, second);
    }

    /** `GetTicketStatusAsync`: `GET /tickets/{id}`; a 404 is an absent ticket, not an error. */
    method GetTicketStatus(ticketId: string, now: Instant, grant: GrantReply, first: Response<FlowSpec.TicketView>,
                           retryAt: Instant, retryGrant: GrantReply, second: Response<FlowSpec.TicketView>)
      returns (r: Outcome<Nullable<FlowSpec.TicketView>>)
      modifies this
      ensures var (c, out, res) := Execute(old(CacheState()), credentials, Lookup(ticketId), now, grant, first, retryAt, retryGrant, second);
              CacheState() == c && sent == old(sent) + out && r == res
    {
      r := ExecuteWithToken(Lookup(ticketId), now, grant, first, retryAt, retryGrant, second);
    }
  }

  // ---------------------------------------------------------------------------
  // Properties of the token cache and the retry
  // ---------------------------------------------------------------------------

  /** A fresh client has no usable token, so its first call starts with a grant request. */
  lemma FirstCallGrants<T>(creds: Credentials, call: Call, now: Instant, grant: GrantReply, first: Response<T>,
                           retryAt: Instant, retryGrant: GrantReply, second: Response<T>)
    ensures var (_, out, _) := Execute(InitialCache, creds, call, now, grant, first, retryAt, retryGrant, second);
            |out| >= 1 && out[0] == GrantRequest(creds)
  {
  }

  /** A usable token is put in the header and nothing is sent. */
  lemma UsableTokenReused(c: Cache, creds: Credentials, now: Instant, grant: GrantReply)
    requires Usable(c, now)
    ensures Refresh(c, creds, now, grant) == (c.(authorization := Some(BearerHeader(c.token))), [], Success(()))
  {
  }

  /**
   * Without a usable token exactly one grant request is sent, and the refresh
   * fails exactly when the endpoint gave no 2xx answer with a non-empty token.
   * A failure leaves the cache as it was.
   */
  lemma StaleTokenGrants(c: Cache, creds: Credentials, now: Instant, grant: GrantReply)
    requires !Usable(c, now)
    ensures var (c', out, ready) := Refresh(c, creds, now, grant);
            out == [GrantRequest(creds)]
            && (ready.Failure? <==> (grant.GrantUnreachable? || !IsSuccessStatus(grant.status)
                                     || grant.body.Null? || grant.body.value.accessToken == ""))
            && (ready.Failure? ==> c' == c)
  {
  }

  /**
   * A granted token is stored with an expiry 300 seconds short of the lifetime
   * the server announced; it is usable right away only when that lifetime is
   * longer than 300 seconds.
   */
  lemma GrantStoresToken(c: Cache, creds: Credentials, now: Instant, status: int, body: TokenBody)
    requires !Usable(c, now) && IsSuccessStatus(status) && body.accessToken != ""
    requires body.expiresIn >= -0x8000_0000 + 300
    ensures var (c', _, ready) := Refresh(c, creds, now, GrantReply(status, Some(body)));
            ready == Success(())
            && c' == Cache(body.accessToken, now + body.expiresIn - 300, Some(BearerHeader(body.accessToken)))
            && (Usable(c', now) <==> body.expiresIn > 300)
  {
  }

  /** When no token can be had, the operation is never sent. */
  lemma FailedGrantSkipsCall<T>(c: Cache, creds: Credentials, call: Call, now: Instant, grant: GrantReply, first: Response<T>,
                                retryAt: Instant, retryGrant: GrantReply, second: Response<T>)
    requires Refresh(c, creds, now, grant).2.Failure?
    ensures var (c', out, r) := Execute(c, creds, call, now, grant, first, retryAt, retryGrant, second);
            c' == c && out == [GrantRequest(creds)] && r.Failure?
  {
  }

  lemma {:induction false} BusinessCallsAppend(a: seq<Request>, b: seq<Request>)
    ensures BusinessCalls(a + b) == BusinessCalls(a) + BusinessCalls(b)
    decreases |a|
  {
    if a == [] {
      assert a + b == b;
    } else {
      assert (a + b)[1..] == a[1..] + b;
      BusinessCallsAppend(a[1..], b);
    }
  }

  /** A refresh sends no business request. */
  lemma RefreshSendsNoCall(c: Cache, creds: Credentials, now: Instant, grant: GrantReply)
    ensures BusinessCalls(Refresh(c, creds, now, grant).1) == 0
  {
    var out := Refresh(c, creds, now, grant).1;
    if out != [] {
      assert out == [GrantRequest(creds)];
      assert out[1..] == [];
    }
  }

  /**
   * The operation is sent at most twice, and a second time only after the
   * first answer was a 401.
   */
  lemma AtMostTwoRuns<T>(c: Cache, creds: Credentials, call: Call, now: Instant, grant: GrantReply, first: Response<T>,
                         retryAt: Instant, retryGrant: GrantReply, second: Response<T>)
    ensures var (_, out, _) := Execute(c, creds, call, now, grant, first, retryAt, retryGrant, second);
            BusinessCalls(out) <= 2 && (BusinessCalls(out) == 2 ==> Interpret(call, first).Rejected?)
  {
    var (c1, sent1, ready) := Refresh(c, creds, now, grant);
    RefreshSendsNoCall(c, creds, now, grant);
    if ready.Success? {
      var req := [RequestFor(call, c1.authorization)];
      assert BusinessCalls(req) == 1 by { assert req[1..] == []; }
      var (c2, sent2, r) := Run(c1, creds, call, first, retryAt, retryGrant, second);
      if Interpret(call, first).Rejected? {
        var (c3, sent3, ready2) := Refresh(c1, creds, retryAt, retryGrant);
        RefreshSendsNoCall(c1, creds, retryAt, retryGrant);
        var req2 := [RequestFor(call, c3.authorization)];
        assert BusinessCalls(req2) == 1 by { assert req2[1..] == []; }
        BusinessCallsAppend(sent3, req2);
        BusinessCallsAppend(req, Retry(c1, creds, call, retryAt, retryGrant, second).1);
      }
      BusinessCallsAppend(sent1, sent2);
    }
  }

  /** A 401 on the retry as well reaches the caller as `Unauthorized`. */
  lemma SecondRejectionPropagates<T>(c: Cache, creds: Credentials, call: Call, now: Instant, grant: GrantReply, first: Response<T>,
                                     retryAt: Instant, retryGrant: GrantReply, second: Response<T>)
    requires Refresh(c, creds, now, grant).2.Success?
    requires Refresh(Refresh(c, creds, now, grant).0, creds, retryAt, retryGrant).2.Success?
    requires Interpret(call, first).Rejected? && Interpret(call, second).Rejected?
    ensures Execute(c, creds, call, now, grant, first, retryAt, retryGrant, second).2 == Failure(Unauthorized)
  {
  }

  /**
   * The refresh after a 401 is not forced: while the cached token has not
   * expired by the client's clock, the retry goes out with the same header and
   * no grant is requested, whatever the server thinks of the token.
   */
  lemma RetryReusesUnexpiredToken<T>(c: Cache, creds: Credentials, call: Call, now: Instant, grant: GrantReply, first: Response<T>,
                                     retryAt: Instant, retryGrant: GrantReply, second: Response<T>)
    requires Usable(c, now) && Usable(c, retryAt) && Interpret(call, first).Rejected?
    ensures var header := Some(BearerHeader(c.token));
            var (c', out, _) := Execute(c, creds, call, now, grant, first, retryAt, retryGrant, second);
            out == [RequestFor(call, header), RequestFor(call, header)] && c' == c.(authorization := header)
  {
    var header := Some(BearerHeader(c.token));
    UsableTokenReused(c, creds, now, grant);
    UsableTokenReused(c.(authorization := header), creds, retryAt, retryGrant);
    assert [] + ([RequestFor(call, header)] + ([] + [RequestFor(call, header)]))
        == [RequestFor(call, header), RequestFor(call, header)];
  }

  /**
   * A 404 means "no such ticket" for a lookup but is an error for a create; a
   * 401 asks for the retry in both.
   */
  lemma NotFoundOnlyForLookup<T>(call: Call, body: Nullable<T>)
    ensures Interpret(call, Response(404, body)) == if call.Lookup? then Completed(Success(Null)) else Completed(Failure(HttpFailure(404)))
    ensures Interpret(call, Response(401, body)) == Rejected
  {
  }
}
