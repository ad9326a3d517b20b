// The per-conversation state: which flow is active, the current step of the
// ticket-creation flow, the draft collected so far, the retry counter and the
// time of the last activity (ConversationContext, ConversationFlow, TicketData).

module Models {
  import opened Common
  import opened Text
  import opened ValidationConstants

  /** The multi-turn flows a conversation can be in. */
  datatype ConversationFlow = None | CreateTicket | CheckTicketStatus

  /** The steps of the ticket-creation flow, in the order the bot asks. */
  datatype CreateTicketStep = AskingName | AskingEmail | AskingDescription | ShowingSummary | AwaitingConfirmation

  /** `!string.IsNullOrWhiteSpace(s)` */
  predicate Present(s: Nullable<string>) {
    s.Some? && !IsBlank(s.value)
  }

  /** The ticket being filled in; each field is absent until its step accepts it. */
  datatype TicketData = TicketData(name: Nullable<string>, email: Nullable<string>, description: Nullable<string>)
  {
    predicate IsComplete() {
      Present(name) && Present(email) && Present(description)
    }
  }

  /** `new TicketData()` */
  const EmptyTicketData := TicketData(Null, Null, Null)

  /** The values of a context's mutable fields. */
  datatype CtxState = CtxState(
    activeFlow: ConversationFlow,
    currentStep: Nullable<CreateTicketStep>,
    ticketData: TicketData,
    failedAttempts: int,
    lastActivity: Instant)

  /** The field defaults of a new context, with its activity stamped at `now`. */
  function DefaultState(now: Instant): CtxState {
    CtxState(None, Null, EmptyTicketData, 0, now)
  }

  /** More than the session timeout has passed since the last activity (strictly). */
  predicate SessionExpired(s: CtxState, now: Instant) {
    now - s.lastActivity > SessionTimeoutSeconds
  }

  /** A context just reset is idle, has no draft and no failures, and has not expired. */
  lemma DefaultStateIsIdle(now: Instant)
    ensures var s := DefaultState(now);
            s.activeFlow == None && s.currentStep.Null? && !s.ticketData.IsComplete()
            && s.failedAttempts == 0 && !SessionExpired(s, now)
  {
  }

  /** A conversation's state, an object the flow updates in place. */
  class ConversationContext {
    /** Failed inputs within one step before the flow is cancelled. */
    static const MaxFailedAttempts: int := ValidationConstants.MaxFailedAttempts

    const conversationId: string
    var activeFlow: ConversationFlow
    var currentStep: Nullable<CreateTicketStep>
    var ticketData: TicketData
    var failedAttempts: int
    var lastActivity: Instant

    function State(): CtxState
      reads this
    {
      CtxState(activeFlow, currentStep, ticketData, failedAttempts, lastActivity)
    }

    /** `new ConversationContext { ConversationId = id }`, created at `now`. */
    constructor (id: string, now: Instant)
      ensures conversationId == id
      ensures State() == DefaultState(now)
    {
      conversationId := id;
      activeFlow := None;
      currentStep := Null;
      ticketData := EmptyTicketData;
      failedAttempts := 0;
      lastActivity := now;
    }

    predicate IsSessionExpired(now: Instant)
      reads this
    {
      SessionExpired(State(), now)
    }

    /** Back to the defaults; the id is kept and the activity stamped at `now`. */
    method Reset(now: Instant)
      modifies this
      ensures State() == DefaultState(now)
    {
      activeFlow := None;
      currentStep := Null;
      ticketData := EmptyTicketData;
      failedAttempts := 0;
      lastActivity := now;
    }

    method ResetAttempts()
      modifies this
      ensures State() == old(State()).(failedAttempts := 0)
    {
      failedAttempts := 0;
    }
  }
}
