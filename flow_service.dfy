// ConversationFlowService: the handlers that read a message and update the
// conversation's context object in place through the state service. Each
// handler is proved to do what the matching step of FlowSpec describes.

module FlowService {
  import opened Common
  import opened Text
  import opened Validation
  import opened Models
  import opened StateService
  import opened FlowSpec
  import opened FlowProperties

  class ConversationFlowService {
    const store: ConversationStateService

    constructor (store: ConversationStateService)
      ensures this.store == store
    {
      this.store := store;
    }

    /**
     * `ProcessMessageAsync`: the stored context of the conversation (a new
     * default one if there was none) moves to the state `Process` gives, and
     * no other conversation's context changes.
     */
    method ProcessMessage(conversationId: string, message: string, now: Instant, create: CreateOutcome, status: StatusOutcome)
      returns (reply: Reply)
      requires store.Valid()
      modifies store, store.contexts.Values
      ensures store.Valid()
      ensures store.contexts.Keys == old(store.contexts.Keys) + {conversationId}
      ensures var prior := if conversationId in old(store.Snapshot()) then old(store.Snapshot())[conversationId] else DefaultState(now);
              var step := Process(prior, message, now, create, status);
              reply == step.1 && store.Snapshot() == old(store.Snapshot())[conversationId := step.0]
    {
      var ctx := store.GetOrCreateContext(conversationId, now);
      ghost var before := store.Snapshot();
      if ctx.IsSessionExpired(now) && ctx.activeFlow != None {
        ExpiredFlowRestarts(ctx.State(), message, now, create, status);
        store.ClearContext(conversationId, now);
        ctx := store.GetOrCreateContext(conversationId, now);
        return SessionExpiredNotice;
      }
      ghost var prior := ctx.State();
      assert prior == if conversationId in old(store.Snapshot()) then old(store.Snapshot())[conversationId] else DefaultState(now);
      reply := Dispatch(ctx, message, now, create, status);
      ghost var step := Process(prior, message, now, create, status);
      assert ctx.State() == step.0 && reply == step.1;
      UpdateOverwrites(old(store.Snapshot()), conversationId, prior, step.0);
    }

    /** A message to a conversation that has not expired: "cancelar", the active step, or the intent. */
    method Dispatch(ctx: ConversationContext, message: string, now: Instant, create: CreateOutcome, status: StatusOutcome)
      returns (reply: Reply)
      requires store.Valid() && store.Holds(ctx)
      requires !(ctx.IsSessionExpired(now) && ctx.activeFlow != None)
      modifies store, ctx
      ensures store.Valid() && store.contexts == old(store.contexts)
      ensures (ctx.State(), reply) == Process(old(ctx.State()), message, now, create, status)
      ensures store.Snapshot() == old(store.Snapshot())[ctx.conversationId := ctx.State()]
    {
      reply := Route(ctx, message, now, create, status);
      // Every other stored context is a different object, which `Route` leaves alone.
      forall id | id in store.contexts
        ensures store.Snapshot()[id] == old(store.Snapshot())[ctx.conversationId := ctx.State()][id]
      {
        if id != ctx.conversationId {
          assert store.contexts[id].conversationId == id;
        }
      }
    }

    /** "cancelar" first, then the active flow's step, then the intent of an idle conversation. */
    method Route(ctx: ConversationContext, message: string, now: Instant, create: CreateOutcome, status: StatusOutcome)
      returns (reply: Reply)
      requires store.Valid() && store.Holds(ctx)
      requires !(ctx.IsSessionExpired(now) && ctx.activeFlow != None)
      modifies store, ctx
      ensures store.Valid() && store.contexts == old(store.contexts)
      ensures (ctx.State(), reply) == Process(old(ctx.State()), message, now, create, status)
    {
      ghost var prior := ctx.State();
      var normalized := Lower(Trim(message));
      if normalized == "cancelar" {
        ProcessCancel(prior, message, now, create, status);
        reply := HandleCancel(ctx, now);
      } else if ctx.activeFlow != None {
        ProcessActive(prior, message, now, create, status);
        reply := HandleActiveFlow(ctx, message, normalized, now, create);
      } else {
        ProcessIdle(prior, message, now, create, status);
        reply := DetectIntentAndRespond(ctx, message, normalized, now, status);
      }
    }

    /** `HandleCancel`: nothing to cancel while idle, otherwise the context is reset. */
    method HandleCancel(ctx: ConversationContext, now: Instant) returns (reply: Reply)
      requires store.Valid() && store.Holds(ctx)
      modifies ctx
      ensures store.Valid() && store.contexts == old(store.contexts)
      ensures (ctx.State(), reply) == CancelStep(old(ctx.State()), now)
    {
      if ctx.activeFlow == None {
        return NothingToCancel;
      }
      var flowName := if ctx.activeFlow == ConversationFlow.CreateTicket then "creación de ticket" else "consulta";
      store.ClearContext(ctx.conversationId, now);
      return Cancelled(flowName);
    }

    /** `DetectIntentAndRespond`: open the creation flow, look a ticket up, or show help. */
    method DetectIntentAndRespond(ctx: ConversationContext, message: string, normalized: string, now: Instant, status: StatusOutcome)
      returns (reply: Reply)
      requires store.Valid() && store.Holds(ctx)
      modifies store, ctx
      ensures store.Valid() && store.contexts == old(store.contexts)
      ensures (ctx.State(), reply) == IdleStep(old(ctx.State()), message, normalized, now, status)
    {
      if IsCreateTicketIntent(normalized) {
        reply := StartCreateTicketFlow(ctx, now);
        return;
      }
      if IsCheckStatusIntent(normalized) {
        var ticketId := ExtractTicketId(message);
        if ticketId.Some? {
          return StatusReply(ticketId.value, status);
        }
        return AskTicketId;
      }
      return Help;
    }

    /** `HandleActiveFlowAsync` and `HandleCreateTicketFlowAsync`: dispatch on the flow and the step. */
    method HandleActiveFlow(ctx: ConversationContext, message: string, normalized: string, now: Instant, create: CreateOutcome)
      returns (reply: Reply)
      requires store.Valid() && store.Holds(ctx)
      modifies store, ctx
      ensures store.Valid() && store.contexts == old(store.contexts)
      ensures (ctx.State(), reply) == ActiveFlowStep(old(ctx.State()), message, normalized, now, create)
    {
      if ctx.activeFlow != ConversationFlow.CreateTicket {
        return Help;
      }
      match ctx.currentStep {
        case Some(AskingName) => reply := HandleNameInput(ctx, message, now);
        case Some(AskingEmail) => reply := HandleEmailInput(ctx, message, now);
        case Some(AskingDescription) => reply := HandleDescriptionInput(ctx, message, now);
        case Some(AwaitingConfirmation) => reply := HandleConfirmation(ctx, normalized, now, create);
        case _ => reply := Help;
      }
    }

    method StartCreateTicketFlow(ctx: ConversationContext, now: Instant) returns (reply: Reply)
      requires store.Valid() && store.Holds(ctx)
      modifies store, ctx
      ensures store.Valid() && store.contexts == old(store.contexts)
      ensures (ctx.State(), reply) == FlowSpec.StartCreateTicketFlow(old(ctx.State()), now)
    {
      ctx.activeFlow := ConversationFlow.CreateTicket;
      ctx.currentStep := Some(AskingName);
      ctx.ticketData := EmptyTicketData;
      store.UpdateContext(ctx, now);
      return AskName;
    }

    /**
     * One more failed attempt, stamped at `now`; at the cap the context is
     * reset and `capped` is set.
     */
    method CountFailure(ctx: ConversationContext, now: Instant) returns (capped: bool)
      requires store.Valid() && store.Holds(ctx)
      modifies store, ctx
      ensures store.Valid() && store.contexts == old(store.contexts)
      ensures capped == CapReached(old(ctx.State()))
      ensures ctx.State() == if capped then DefaultState(now) else Failed(old(ctx.State()), now)
    {
      ctx.failedAttempts := ctx.failedAttempts + 1;
      store.UpdateContext(ctx, now);
      if ctx.failedAttempts >= ConversationContext.MaxFailedAttempts {
        store.ClearContext(ctx.conversationId, now);
        return true;
      }
      return false;
    }

    method HandleNameInput(ctx: ConversationContext, name: string, now: Instant) returns (reply: Reply)
      requires store.Valid() && store.Holds(ctx)
      modifies store, ctx
      ensures store.Valid() && store.contexts == old(store.contexts)
      ensures (ctx.State(), reply) == NameStep(old(ctx.State()), name, now)
    {
      var verdict := ValidateName(name);
      if verdict.Invalid? {
        var remaining := ConversationContext.MaxFailedAttempts - (ctx.failedAttempts + 1);
        var capped := CountFailure(ctx, now);
        if capped {
          return TooManyAttempts(AskingName);
        }
        return NameRejected(verdict.error, remaining);
      }
      ctx.ResetAttempts();
      ctx.ticketData := ctx.ticketData.(name := Some(Trim(name)));
      ctx.currentStep := Some(AskingEmail);
      store.UpdateContext(ctx, now);
      return Greeting(Trim(name));
    }

    method HandleEmailInput(ctx: ConversationContext, email: string, now: Instant) returns (reply: Reply)
      requires store.Valid() && store.Holds(ctx)
      modifies store, ctx
      ensures store.Valid() && store.contexts == old(store.contexts)
      ensures (ctx.State(), reply) == EmailStep(old(ctx.State()), email, now)
    {
      var verdict := ValidateEmail(email);
      if verdict.Invalid? {
        var remaining := ConversationContext.MaxFailedAttempts - (ctx.failedAttempts + 1);
        var capped := CountFailure(ctx, now);
        if capped {
          return TooManyAttempts(AskingEmail);
        }
        return EmailRejected(verdict.error, remaining);
      }
      ctx.ResetAttempts();
      ctx.ticketData := ctx.ticketData.(email := Some(Lower(Trim(email))));
      ctx.currentStep := Some(AskingDescription);
      store.UpdateContext(ctx, now);
      return AskDescription;
    }

    method HandleDescriptionInput(ctx: ConversationContext, description: string, now: Instant) returns (reply: Reply)
      requires store.Valid() && store.Holds(ctx)
      modifies store, ctx
      ensures store.Valid() && store.contexts == old(store.contexts)
      ensures (ctx.State(), reply) == DescriptionStep(old(ctx.State()), description, now)
    {
      var verdict := ValidateDescription(description);
      if verdict.Invalid? {
        var remaining := ConversationContext.MaxFailedAttempts - (ctx.failedAttempts + 1);
        var capped := CountFailure(ctx, now);
        if capped {
          return TooManyAttempts(AskingDescription);
        }
        return DescriptionRejected(verdict.error, remaining);
      }
      ctx.ResetAttempts();
      ctx.ticketData := ctx.ticketData.(description := Some(Trim(description)));
      ctx.currentStep := Some(AwaitingConfirmation);
      store.UpdateContext(ctx, now);
      return Summary(ctx.ticketData);
    }

    /** `HandleConfirmationAsync`: an affirmative word wins over a negative one. */
    method HandleConfirmation(ctx: ConversationContext, response: string, now: Instant, create: CreateOutcome)
      returns (reply: Reply)
      requires store.Valid() && store.Holds(ctx)
      modifies store, ctx
      ensures store.Valid() && store.contexts == old(store.contexts)
      ensures (ctx.State(), reply) == ConfirmationStep(old(ctx.State()), response, now, create)
    {
      if IsAffirmative(response) {
        reply := CreateTicket(ctx, now, create);
        return;
      }
      if IsNegative(response) {
        store.ClearContext(ctx.conversationId, now);
        return TicketDiscarded;
      }
      var remaining := ConversationContext.MaxFailedAttempts - (ctx.failedAttempts + 1);
      var capped := CountFailure(ctx, now);
      if capped {
        return TooManyAttempts(AwaitingConfirmation);
      }
      return NotUnderstood(remaining);
    }

    /**
     * `CreateTicketAsync`, with the ticket service's answer as `outcome`: a
     * created ticket resets the context; an empty answer or a failure counts
     * as a failed attempt.
     */
    method CreateTicket(ctx: ConversationContext, now: Instant, outcome: CreateOutcome) returns (reply: Reply)
      requires store.Valid() && store.Holds(ctx)
      modifies store, ctx
      ensures store.Valid() && store.contexts == old(store.contexts)
      ensures (ctx.State(), reply) == CreateStep(old(ctx.State()), now, outcome)
    {
      match outcome {
        case CreateReturned(id) =>
          store.ClearContext(ctx.conversationId, now);
          return TicketCreated(id);
        case CreateReturnedNull =>
          var capped := CountFailure(ctx, now);
          if capped {
            return CreateFailedPersistently;
          }
          return CreateFailed;
        case CreateThrew =>
          var remaining := ConversationContext.MaxFailedAttempts - (ctx.failedAttempts + 1);
          var capped := CountFailure(ctx, now);
          if capped {
            return ServiceErrorPersistent;
          }
          return ServiceError(remaining);
      }
    }
  }
}
