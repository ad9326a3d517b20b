// The mock ticket API: an in-memory table of tickets keyed by id, a counter
// that numbers them, and the token check of the mock OAuth server in front of
// every endpoint.

module MockTickets {
  import opened Common
  import opened Text
  import opened MockOAuth

  // ---------------------------------------------------------------------------
  // Ticket ids: "TCK-" and the counter in at least three decimal digits
  // ---------------------------------------------------------------------------

  function DigitChar(d: nat): char
    requires d < 10
  {
    ('0' as int + d) as char
  }

  function DigitValue(c: char): nat
    requires IsAsciiDigit(c)
  {
    c as int - '0' as int
  }

  predicate AllDigits(s: string) {
    forall i :: 0 <= i < |s| ==> IsAsciiDigit(s[i])
  }

  /** `n.ToString()` for a non-negative `n`: its decimal digits, no leading zero. */
  function Decimal(n: nat): (s: string)
    ensures |s| >= 1 && AllDigits(s)
  {
    if n < 10 then [DigitChar(n)] else Decimal(n / 10) + [DigitChar(n % 10)]
  }

  /** The number a string of decimal digits denotes. */
  function DecimalValue(s: string): nat
    requires AllDigits(s)
    decreases |s|
  {
    if s == [] then 0 else DecimalValue(s[..|s| - 1]) * 10 + DigitValue(s[|s| - 1])
  }

  /** The format `D3`: the decimal digits, padded on the left with zeros to three. */
  function PadDigits3(n: nat): (s: string)
    ensures |s| >= 3 && AllDigits(s)
  {
    var d := Decimal(n);
    if |d| >= 3 then d else seq(3 - |d|, _ => '0') + d
  }

  /** `$"TCK-{n:D3}"`. */
  function TicketId(n: nat): (id: string)
    ensures |id| >= 7 && id[..4] == "TCK-" && AllDigits(id[4..])
  {
    var id := "TCK-" + PadDigits3(n);
    assert id[4..] == PadDigits3(n);
    id
  }

  lemma {:induction false} DecimalRoundTrip(n: nat)
    ensures DecimalValue(Decimal(n)) == n
  {
    if n >= 10 {
      var s := Decimal(n);
      assert s[..|s| - 1] == Decimal(n / 10);
      DecimalRoundTrip(n / 10);
    }
  }

  /** A leading zero does not change the value. */
  lemma {:induction false} LeadingZero(s: string)
    requires AllDigits(s)
    ensures DecimalValue(['0'] + s) == DecimalValue(s)
    decreases |s|
  {
    if s != [] {
      var t := ['0'] + s;
      assert t[..|t| - 1] == ['0'] + s[..|s| - 1];
      LeadingZero(s[..|s| - 1]);
    }
  }

  lemma {:induction false} LeadingZeros(k: nat, s: string)
    requires AllDigits(s)
    ensures DecimalValue(seq(k, _ => '0') + s) == DecimalValue(s)
    decreases k
  {
    if k == 0 {
      assert seq(k, _ => '0') + s == s;
    } else {
      var rest := seq(k - 1, _ => '0') + s;
      assert seq(k, _ => '0') + s == ['0'] + rest;
      LeadingZeros(k - 1, s);
      LeadingZero(rest);
    }
  }

  /** The number can be read back from the id. */
  lemma TicketIdRoundTrip(n: nat)
    ensures DecimalValue(TicketId(n)[4..]) == n
  {
    var d := Decimal(n);
    DecimalRoundTrip(n);
    if |d| < 3 {
      LeadingZeros(3 - |d|, d);
    }
    assert TicketId(n)[4..] == PadDigits3(n);
  }

  /** Different counters give different ids. */
  lemma TicketIdInjective(a: nat, b: nat)
    requires TicketId(a) == TicketId(b)
    ensures a == b
  {
    TicketIdRoundTrip(a);
    TicketIdRoundTrip(b);
  }

  // ---------------------------------------------------------------------------
  // The table and the endpoints
  // ---------------------------------------------------------------------------

  const OpenStatus := "Abierto"

  datatype Ticket = Ticket(id: string, name: string, email: string, description: string, status: string, createdAt: Instant)

  /** The JSON body of `POST /tickets`; a missing field is `Null`. */
  datatype CreateTicketRequest = CreateTicketRequest(name: Nullable<string>, email: Nullable<string>, description: Nullable<string>)

  /** `string.IsNullOrWhiteSpace`. */
  predicate NullOrWhiteSpace(s: Nullable<string>) {
    s.Null? || IsBlank(s.value)
  }

  datatype CreatedBody = CreatedBody(id: string, message: string)

  datatype CreateResult =
    | CreateUnauthorized
    | CreateBadRequest(message: string)
    | Created(location: string, body: CreatedBody)

  datatype LookupResult = LookupUnauthorized | LookupNotFound(message: string) | Found(ticket: Ticket)

  /** Which of the three required fields is the first to be missing, if any. */
  function MissingField(request: CreateTicketRequest): Nullable<string> {
    if NullOrWhiteSpace(request.name) then Some("El nombre es requerido")
    else if NullOrWhiteSpace(request.email) then Some("El email es requerido")
    else if NullOrWhiteSpace(request.description) then Some("La descripción es requerida")
    else Null
  }

  /** The number an id of the form `TCK-` and digits carries; 0 for any other string. */
  function IdNumber(id: string): nat {
    if |id| >= 4 && id[..4] == "TCK-" && AllDigits(id[4..]) then DecimalValue(id[4..]) else 0
  }

  lemma IdNumberOfTicketId(n: nat)
    ensures IdNumber(TicketId(n)) == n
  {
    TicketIdRoundTrip(n);
  }

  /** Every ticket sits under its own id, which numbers it no higher than `counter`. */
  ghost predicate TableValid(tickets: map<string, Ticket>, counter: nat) {
    forall id | id in tickets :: tickets[id].id == id && IdNumber(id) <= counter
  }

  /** The next number's id is not taken yet, and storing a ticket under it keeps the table valid. */
  lemma NextIdIsFree(tickets: map<string, Ticket>, counter: nat, ticket: Ticket)
    requires TableValid(tickets, counter) && ticket.id == TicketId(counter + 1)
    ensures TicketId(counter + 1) !in tickets
    ensures TableValid(tickets[ticket.id := ticket], counter + 1)
  {
    IdNumberOfTicketId(counter + 1);
  }

  const CreatedMessage := "Ticket creado exitosamente"

  /** The `Location` of a created ticket. */
  function Location(id: string): string {
    "/tickets/" + id
  }

  function NotFoundMessage(id: string): string {
    "Ticket " + id + " no encontrado"
  }

  /** The stored ticket for a complete request: open, created at `now`. */
  function NewTicket(id: string, request: CreateTicketRequest, now: Instant): Ticket
    requires MissingField(request).Null?
  {
    Ticket(id, request.name.value, request.email.value, request.description.value, OpenStatus, now)
  }

  /**
   * `CreateTicket` on a table and a counter, once the token check gave
   * `authorized`: the new table, the new counter and the answer.
   */
  function CreateDecision(tickets: map<string, Ticket>, counter: nat, request: CreateTicketRequest,
                          authorized: bool, now: Instant): (map<string, Ticket>, nat, CreateResult)
  {
    if !authorized then (tickets, counter, CreateUnauthorized)
    else if MissingField(request).Some? then (tickets, counter, CreateBadRequest(MissingField(request).value))
    else
      var id := TicketId(counter + 1);
      (tickets[id := NewTicket(id, request, now)], counter + 1, Created(Location(id), CreatedBody(id, CreatedMessage)))
  }

  /** `GetTicket` once the token check gave `authorized`: the id is looked up upper-cased. */
  function LookupDecision(tickets: map<string, Ticket>, id: string, authorized: bool): LookupResult {
    if !authorized then LookupUnauthorized
    else if Upper(id) !in tickets then LookupNotFound(NotFoundMessage(id))
    else Found(tickets[Upper(id)])
  }

  class TicketsController {
    const oauth: OAuthController
    /** `_tickets`. */
    var tickets: map<string, Ticket>
    /** `_ticketCounter`. */
    var ticketCounter: nat

    ghost predicate Valid()
      reads this
    {
      TableValid(tickets, ticketCounter)
    }

    constructor (oauth: OAuthController)
      ensures this.oauth == oauth && tickets == map[] && ticketCounter == 0 && Valid()
    {
      this.oauth := oauth;
      tickets := map[];
      ticketCounter := 0;
    }

    method CreateTicket(request: CreateTicketRequest, authorization: Nullable<string>, now: Instant)
      returns (r: CreateResult)
      requires Valid()
      modifies this
      ensures Valid()
      ensures (tickets, ticketCounter, r)
              == CreateDecision(old(tickets), old(ticketCounter), request, oauth.ValidateToken(authorization, now), now)
    {
      if !oauth.ValidateToken(authorization, now) {
        return CreateUnauthorized;
      }
      if NullOrWhiteSpace(request.name) {
        return CreateBadRequest("El nombre es requerido");
      }
      if NullOrWhiteSpace(request.email) {
        return CreateBadRequest("El email es requerido");
      }
      if NullOrWhiteSpace(request.description) {
        return CreateBadRequest("La descripción es requerida");
      }
      var ticketId := TicketId(ticketCounter + 1);
      var ticket := NewTicket(ticketId, request, now);
      NextIdIsFree(tickets, ticketCounter, ticket);
      ticketCounter := ticketCounter + 1;
      tickets := tickets[ticketId := ticket];
      return Created(Location(ticketId), CreatedBody(ticketId, CreatedMessage));
    }

    /** Nothing changes on a lookup. */
    method GetTicket(id: string, authorization: Nullable<string>, now: Instant) returns (r: LookupResult)
      ensures r == LookupDecision(tickets, id, oauth.ValidateToken(authorization, now))
    {
      if !oauth.ValidateToken(authorization, now) {
        return LookupUnauthorized;
      }
      var key := Upper(id);
      if key !in tickets {
        return LookupNotFound(NotFoundMessage(id));
      }
      return Found(tickets[key]);
    }
  }

  // ---------------------------------------------------------------------------
  // Properties
  // ---------------------------------------------------------------------------

  /**
   * The token is checked before anything else, then the name, the email and the
   * description in that order; a refused request changes neither the table nor
   * the counter.
   */
  lemma RefusedCreateChangesNothing(tickets: map<string, Ticket>, counter: nat, request: CreateTicketRequest,
                                    authorized: bool, now: Instant)
    requires !authorized || MissingField(request).Some?
    ensures var (t, c, r) := CreateDecision(tickets, counter, request, authorized, now);
            t == tickets && c == counter
            && (!authorized ==> r == CreateUnauthorized)
            && (authorized ==> r == CreateBadRequest(MissingField(request).value))
  {
  }

  /**
   * A complete request takes the next number exactly once and stores an open
   * ticket with the submitted fields under an id not used before.
   */
  lemma CreateStoresNewTicket(tickets: map<string, Ticket>, counter: nat, request: CreateTicketRequest, now: Instant)
    requires TableValid(tickets, counter) && MissingField(request).Null?
    ensures var (t, c, r) := CreateDecision(tickets, counter, request, true, now);
            var id := TicketId(counter + 1);
            c == counter + 1 && id !in tickets && t.Keys == tickets.Keys + {id}
            && (forall k | k in tickets :: t[k] == tickets[k])
            && t[id] == Ticket(id, request.name.value, request.email.value, request.description.value, "Abierto", now)
            && !IsBlank(t[id].name) && !IsBlank(t[id].email) && !IsBlank(t[id].description)
            && r.Created? && r.body.id == id && TableValid(t, c)
  {
    var id := TicketId(counter + 1);
    NextIdIsFree(tickets, counter, NewTicket(id, request, now));
  }

  /** The id is matched without regard to case: a lower-case id finds the stored ticket. */
  lemma LookupIgnoresCase(tickets: map<string, Ticket>, n: nat)
    requires TicketId(n) in tickets
    ensures LookupDecision(tickets, Lower(TicketId(n)), true) == Found(tickets[TicketId(n)])
  {
    UpperOfLowerTicketId(n);
  }

  /** An id survives lower-casing and upper-casing again: it holds only `TCK-` and digits. */
  lemma UpperOfLowerTicketId(n: nat)
    ensures Upper(Lower(TicketId(n))) == TicketId(n)
  {
    var id := TicketId(n);
    forall i | 0 <= i < |id| ensures Upper(Lower(id))[i] == id[i] {
      if i >= 4 {
        assert id[4..][i - 4] == id[i];
      } else {
        assert id[..4][i] == id[i];
      }
    }
  }
}
