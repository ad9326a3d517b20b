// How the pieces meet: the bot's ticket client talks to the mock OAuth server
// and the mock ticket API, and the conversation flow reads what the client
// returns. The wire between them is modelled by the small translations below
// (a server's answer as the status and body the client sees, a client's
// request as the fields the server reads); the lemmas state what each side
// can rely on from the other.

module Integration {
  import opened Common
  import opened Text
  import opened Models
  import opened FlowSpec
  import opened FlowProperties
  import TC = TicketClient
  import OA = MockOAuth
  import MT = MockTickets

  // ---------------------------------------------------------------------------
  // The wire
  // ---------------------------------------------------------------------------

  /** The form the token endpoint reads from the client's grant request. */
  function GrantForm(grantType: string, clientId: string, clientSecret: string): OA.TokenRequest {
    OA.TokenRequest(Some(grantType), Some(clientId), Some(clientSecret))
  }

  /** The token endpoint's answer as the client receives it: 400, 401, or 200 with the token. */
  function DeliverGrant(r: OA.GrantResult): TC.GrantReply {
    match r
    case BadRequest(_) => TC.GrantReply(400, Null)
    case Unauthorized(_) => TC.GrantReply(401, Null)
    case Ok(t) =>
      if -0x8000_0000 <= t.expiresIn < 0x8000_0000 then
        TC.GrantReply(200, Some(TC.TokenBody(t.accessToken, t.tokenType, t.expiresIn)))
      else TC.GrantReply(200, Null)
  }

  /** The body of `POST /tickets` as the ticket API reads it: every field of a draft is sent. */
  function AsCreateRequest(d: TicketData): MT.CreateTicketRequest {
    MT.CreateTicketRequest(d.name, d.email, d.description)
  }

  /** The ticket API's answer to a creation, as the client receives it. */
  function DeliverCreate(r: MT.CreateResult): TC.Response<TC.CreateTicketResponse> {
    match r
    case CreateUnauthorized => TC.Response(401, Null)
    case CreateBadRequest(_) => TC.Response(400, Null)
    case Created(_, body) => TC.Response(201, Some(TC.CreateTicketResponse(body.id, body.message)))
  }

  /** A stored ticket as the status call deserializes it. */
  function ViewOf(t: MT.Ticket): TicketView {
    TicketView(t.id, t.name, t.email, t.description, Some(t.status), t.createdAt)
  }

  /** The ticket API's answer to a lookup, as the client receives it. */
  function DeliverLookup(r: MT.LookupResult): TC.Response<TicketView> {
    match r
    case LookupUnauthorized => TC.Response(401, Null)
    case LookupNotFound(_) => TC.Response(404, Null)
    case Found(t) => TC.Response(200, Some(ViewOf(t)))
  }

  // ---------------------------------------------------------------------------
  // What the flow makes of the client's results
  // ---------------------------------------------------------------------------

  /**
   * The flow's reading of `CreateTicketAsync`: an exception, a `null` result,
   * or a response whose id is announced.
   */
  function AsCreateOutcome(r: TC.Outcome<Nullable<TC.CreateTicketResponse>>): (o: CreateOutcome)
    ensures o == CreateThrew <==> r.Failure?
    ensures o == CreateReturnedNull <==> r == TC.Success(Null)
    ensures o.CreateReturned? <==> r.Success? && r.value.Some?
    ensures o.CreateReturned? ==> o.id == r.value.value.id
  {
    match r
    case Failure(_) => CreateThrew
    case Success(Null) => CreateReturnedNull
    case Success(Some(response)) => CreateReturned(response.id)
  }

  /** The flow's reading of `GetTicketStatusAsync`: an exception, `null` (not found), or the ticket. */
  function AsStatusOutcome(r: TC.Outcome<Nullable<TicketView>>): (o: StatusOutcome)
    ensures o == LookupThrew <==> r.Failure?
    ensures o == NotFound <==> r == TC.Success(Null)
    ensures o.Found? <==> r.Success? && r.value.Some?
    ensures o.Found? ==> o.ticket == r.value.value
  {
    match r
    case Failure(_) => LookupThrew
    case Success(Null) => NotFound
    case Success(Some(t)) => Found(t)
  }

  // ---------------------------------------------------------------------------
  // Tokens
  // ---------------------------------------------------------------------------

  /**
   * With no settings the client sends the credentials the server expects, so
   * the grant succeeds: the client then holds the server's token, sends it as
   * a bearer header, and drops it 300 seconds before the server would, so
   * every header it sends from that cache is accepted.
   */
  lemma DefaultClientTokenAccepted(c: TC.Cache, granted: Instant, now: Instant, token: string, serverExpiry: Instant)
    requires !TC.Usable(c, granted) && token != ""
    requires serverExpiry == granted + OA.TokenLifetimeSeconds
    ensures var creds := TC.ConfiguredCredentials(Null, Null);
            var reply := OA.GrantDecision(GrantForm("client_credentials", creds.clientId, creds.clientSecret), token);
            var (c1, sent, r) := TC.Refresh(c, creds, granted, DeliverGrant(reply));
            reply.Ok? && r.Success? && sent == [TC.GrantRequest(creds)]
            && c1.token == token && c1.expiry == serverExpiry - 300
            && (TC.Usable(c1, now) ==> OA.HeaderValid(c1.authorization, token, serverExpiry, now))
  {
    var creds := TC.ConfiguredCredentials(Null, Null);
    assert OA.GrantDecision(GrantForm("client_credentials", creds.clientId, creds.clientSecret), token)
        == OA.Ok(OA.TokenResponse(token, "Bearer", 1800));
    OA.BearerHeaderAccepted(token, serverExpiry, now);
  }

  /** A configured secret other than the server's is refused, and the client then makes no business call. */
  lemma WrongSecretRefused<T>(c: TC.Cache, secret: Nullable<string>, call: TC.Call, now: Instant, token: string,
                              first: TC.Response<T>, retryAt: Instant, retryGrant: TC.GrantReply, second: TC.Response<T>)
    requires !TC.Usable(c, now) && secret.Some? && secret.value != "bot-secret"
    ensures var creds := TC.ConfiguredCredentials(Null, secret);
            var reply := OA.GrantDecision(GrantForm("client_credentials", creds.clientId, creds.clientSecret), token);
            var (_, sent, r) := TC.Execute(c, creds, call, now, DeliverGrant(reply), first, retryAt, retryGrant, second);
            reply.Unauthorized? && r == TC.Failure(TC.HttpFailure(401)) && TC.BusinessCalls(sent) == 0
  {
    var creds := TC.ConfiguredCredentials(Null, secret);
    var reply := OA.GrantDecision(GrantForm("client_credentials", creds.clientId, creds.clientSecret), token);
    assert reply.Unauthorized?;
    TC.FailedGrantSkipsCall(c, creds, call, now, DeliverGrant(reply), first, retryAt, retryGrant, second);
  }

  // ---------------------------------------------------------------------------
  // Creating a ticket
  // ---------------------------------------------------------------------------

  /** A draft the flow asks to confirm has no field the ticket API would refuse. */
  lemma ConfirmedDraftAccepted(s: CtxState)
    requires Consistent(s) && s.currentStep == Some(AwaitingConfirmation)
    ensures MT.MissingField(AsCreateRequest(s.ticketData)).Null?
  {
    ConfirmationDraftComplete(s);
  }

  /**
   * The whole creation: a yes at the confirmation step, with a token the API
   * accepts, stores the draft as a new open ticket under the next id, and the
   * user is told that id.
   */
  lemma ConfirmedDraftBecomesTicket(s: CtxState, yes: string, now: Instant, status: StatusOutcome,
                                    tickets: map<string, MT.Ticket>, counter: nat,
                                    c: TC.Cache, creds: TC.Credentials, grant: TC.GrantReply,
                                    retryAt: Instant, retryGrant: TC.GrantReply,
                                    second: TC.Response<TC.CreateTicketResponse>)
    requires Consistent(s) && s.activeFlow == ConversationFlow.CreateTicket
    requires s.currentStep == Some(AwaitingConfirmation) && !SessionExpired(s, now)
    requires IsAffirmative(Normalize(yes)) && Normalize(yes) != "cancelar"
    requires MT.TableValid(tickets, counter) && TC.Usable(c, now)
    ensures var d := s.ticketData;
            var (t, _, served) := MT.CreateDecision(tickets, counter, AsCreateRequest(d), true, now);
            var (_, _, got) := TC.Execute(c, creds, TC.Create(d), now, grant, DeliverCreate(served),
                                          retryAt, retryGrant, second);
            var id := MT.TicketId(counter + 1);
            got == TC.Success(Some(TC.CreateTicketResponse(id, MT.CreatedMessage)))
            && t[id] == MT.Ticket(id, d.name.value, d.email.value, d.description.value, MT.OpenStatus, now)
            && Process(s, yes, now, AsCreateOutcome(got), status) == (DefaultState(now), TicketCreated(id))
  {
    var d := s.ticketData;
    var id := MT.TicketId(counter + 1);
    ConfirmedDraftAccepted(s);
    MT.CreateStoresNewTicket(tickets, counter, AsCreateRequest(d), now);
    var served := MT.CreateDecision(tickets, counter, AsCreateRequest(d), true, now).2;
    assert DeliverCreate(served) == TC.Response(201, Some(TC.CreateTicketResponse(id, MT.CreatedMessage)));
    TC.UsableTokenReused(c, creds, now, grant);
    ConfirmedCreates(s, yes, now, id, status);
  }

  /** A 404 means an error to the flow when creating, but "no such ticket" when looking up. */
  lemma NotFoundReadsDifferently(c: TC.Cache, creds: TC.Credentials, now: Instant, grant: TC.GrantReply,
                                 d: TicketData, id: string, retryAt: Instant, retryGrant: TC.GrantReply,
                                 secondCreate: TC.Response<TC.CreateTicketResponse>,
                                 secondLookup: TC.Response<TicketView>)
    requires TC.Usable(c, now)
    ensures AsCreateOutcome(TC.Execute(c, creds, TC.Create(d), now, grant, TC.Response(404, Null),
                                       retryAt, retryGrant, secondCreate).2) == CreateThrew
    ensures AsStatusOutcome(TC.Execute(c, creds, TC.Lookup(id), now, grant, TC.Response(404, Null),
                                       retryAt, retryGrant, secondLookup).2) == NotFound
  {
    TC.UsableTokenReused(c, creds, now, grant);
  }

  // ---------------------------------------------------------------------------
  // Looking a ticket up
  // ---------------------------------------------------------------------------

  /** An id the API hands out is found again in a message that quotes it, in any case. */
  lemma QuotedIdExtracted(n: nat)
    ensures ExtractTicketId(MT.TicketId(n)) == Some(MT.TicketId(n))
    ensures ExtractTicketId(Lower(MT.TicketId(n))) == Some(MT.TicketId(n))
  {
    var id := MT.TicketId(n);
    UpperOfTicketId(n);
    ExtractWholeId(id);
    var low := Lower(id);
    assert low[..4] == "tck-" by {
      assert id[..4][0] == id[0] && id[..4][1] == id[1] && id[..4][2] == id[2] && id[..4][3] == id[3];
    }
    forall k | 4 <= k < |low| ensures IsAsciiDigit(low[k]) {
      assert id[4..][k - 4] == id[k];
    }
    MT.UpperOfLowerTicketId(n);
    ExtractWholeId(low);
  }

  /** A message that is `TCK-` (in either case) and digits yields itself, upper-cased. */
  lemma ExtractWholeId(s: string)
    requires |s| >= 5 && (s[..4] == "TCK-" || s[..4] == "tck-")
    requires forall k :: 4 <= k < |s| ==> IsAsciiDigit(s[k])
    ensures ExtractTicketId(s) == Some(Upper(s))
  {
    assert s[..4][0] == s[0] && s[..4][1] == s[1] && s[..4][2] == s[2] && s[..4][3] == s[3];
    assert TicketIdAt(s, 0);
    assert FindTicketId(s, 0) == Some(0);
    var k := DigitRunEnd(s, 4);
    assert k == |s|;
    assert s[0..k] == s;
  }

  /** An id the API hands out is already upper case. */
  lemma UpperOfTicketId(n: nat)
    ensures Upper(MT.TicketId(n)) == MT.TicketId(n)
  {
    var id := MT.TicketId(n);
    forall i | 0 <= i < |id| ensures Upper(id)[i] == id[i] {
      if i >= 4 {
        assert id[4..][i - 4] == id[i];
      } else {
        assert id[..4][i] == id[i];
      }
    }
  }

  /** A ticket the API created shows the green badge: its status is "Abierto". */
  lemma NewTicketShowsOpen(id: string, request: MT.CreateTicketRequest, now: Instant)
    requires MT.MissingField(request).Null?
    ensures Badge(ViewOf(MT.NewTicket(id, request, now)).status) == Green
  {
    assert Lower(MT.OpenStatus) == "abierto";
  }

  /**
   * Asking for a stored ticket by a message that quotes its id, with a token
   * the API accepts, shows that ticket.
   */
  lemma QuotedTicketShown(tickets: map<string, MT.Ticket>, n: nat, message: string,
                          c: TC.Cache, creds: TC.Credentials, now: Instant, grant: TC.GrantReply,
                          retryAt: Instant, retryGrant: TC.GrantReply, second: TC.Response<TicketView>)
    requires MT.TicketId(n) in tickets && TC.Usable(c, now)
    requires message == MT.TicketId(n) || message == Lower(MT.TicketId(n))
    ensures ExtractTicketId(message) == Some(MT.TicketId(n))
    ensures var id := MT.TicketId(n);
            var served := MT.LookupDecision(tickets, id, true);
            var got := TC.Execute(c, creds, TC.Lookup(id), now, grant, DeliverLookup(served),
                                  retryAt, retryGrant, second).2;
            AsStatusOutcome(got) == Found(ViewOf(tickets[id]))
  {
    var id := MT.TicketId(n);
    QuotedIdExtracted(n);
    UpperOfTicketId(n);
    var served := MT.LookupDecision(tickets, id, true);
    assert served == MT.Found(tickets[id]);
    TC.UsableTokenReused(c, creds, now, grant);
  }
}
