// What the conversation flow guarantees over one message and over a run of
// messages: the shape of a context it can reach, the retry cap, cancellation,
// expiry, and the ticket draft the confirmation step sends.

module FlowProperties {
  import opened Common
  import opened Text
  import opened ValidationConstants
  import opened Validation
  import opened Models
  import opened FlowSpec

  // ---------------------------------------------------------------------------
  // The reachable contexts
  // ---------------------------------------------------------------------------

  /** A name as the name step stores it: trimmed and accepted. */
  predicate NameOk(n: string) {
    Trim(n) == n && ValidateName(n).Valid?
  }

  /** An address as the e-mail step stores it: trimmed, lower-cased and accepted. */
  predicate EmailOk(e: string) {
    Lower(Trim(e)) == e && EmailVerdict(e).Valid?
  }

  /** A description as the description step stores it: trimmed and accepted. */
  predicate DescriptionOk(d: string) {
    Trim(d) == d && ValidateDescription(d).Valid?
  }

  /** The draft holds exactly the fields the steps before `step` accepted. */
  predicate DraftFits(step: CreateTicketStep, d: TicketData) {
    match step
    case AskingName => d == EmptyTicketData
    case AskingEmail => d.name.Some? && NameOk(d.name.value) && d.email.Null? && d.description.Null?
    case AskingDescription =>
      d.name.Some? && NameOk(d.name.value) && d.email.Some? && EmailOk(d.email.value) && d.description.Null?
    case AwaitingConfirmation =>
      d.name.Some? && NameOk(d.name.value) && d.email.Some? && EmailOk(d.email.value)
      && d.description.Some? && DescriptionOk(d.description.value)
    case ShowingSummary => false
  }

  /**
   * A context the flow can reach from a new one: idle with nothing collected,
   * or creating a ticket below the retry cap with a draft that fits the step.
   * The status flow is never entered and the summary step never used.
   */
  predicate Consistent(s: CtxState) {
    match s.activeFlow
    case None => s.currentStep.Null? && s.ticketData == EmptyTicketData && s.failedAttempts == 0
    case CreateTicket =>
      0 <= s.failedAttempts < ConversationContext.MaxFailedAttempts
      && s.currentStep.Some? && DraftFits(s.currentStep.value, s.ticketData)
    case CheckTicketStatus => false
  }

  /** A reply that reports remaining attempts reports between 1 and 4 of them. */
  predicate RemainingInRange(r: Reply) {
    (r.NameRejected? || r.EmailRejected? || r.DescriptionRejected? || r.NotUnderstood? || r.ServiceError?)
    ==> 1 <= r.remaining < ConversationContext.MaxFailedAttempts
  }

  lemma NameStepKeepsConsistent(s: CtxState, name: string, now: Instant)
    requires Consistent(s) && s.activeFlow == CreateTicket && s.currentStep == Some(AskingName)
    ensures Consistent(NameStep(s, name, now).0) && RemainingInRange(NameStep(s, name, now).1)
  {
    if ValidateName(name).Valid? {
      ValidateNameTrimmed(name);
      TrimIdempotent(name);
      assert NameOk(Trim(name));
    }
  }

  lemma EmailStepKeepsConsistent(s: CtxState, email: string, now: Instant)
    requires Consistent(s) && s.activeFlow == CreateTicket && s.currentStep == Some(AskingEmail)
    ensures Consistent(EmailStep(s, email, now).0) && RemainingInRange(EmailStep(s, email, now).1)
  {
    if EmailVerdict(email).Valid? {
      var t := Trim(email);
      EmailVerdictNormalized(email);
      TrimIdempotent(email);
      TrimLower(t);
      LowerIdempotent(t);
      assert EmailOk(Lower(t));
    }
  }

  lemma DescriptionStepKeepsConsistent(s: CtxState, description: string, now: Instant)
    requires Consistent(s) && s.activeFlow == CreateTicket && s.currentStep == Some(AskingDescription)
    ensures Consistent(DescriptionStep(s, description, now).0) && RemainingInRange(DescriptionStep(s, description, now).1)
  {
    if ValidateDescription(description).Valid? {
      ValidateDescriptionTrimmed(description);
      TrimIdempotent(description);
      assert DescriptionOk(Trim(description));
    }
  }

  lemma CreateStepKeepsConsistent(s: CtxState, now: Instant, create: CreateOutcome)
    requires Consistent(s) && s.activeFlow == CreateTicket && s.currentStep == Some(AwaitingConfirmation)
    ensures Consistent(CreateStep(s, now, create).0) && RemainingInRange(CreateStep(s, now, create).1)
  {
  }

  lemma ConfirmationStepKeepsConsistent(s: CtxState, response: string, now: Instant, create: CreateOutcome)
    requires Consistent(s) && s.activeFlow == CreateTicket && s.currentStep == Some(AwaitingConfirmation)
    ensures Consistent(ConfirmationStep(s, response, now, create).0)
    ensures RemainingInRange(ConfirmationStep(s, response, now, create).1)
  {
    if IsAffirmative(response) {
      CreateStepKeepsConsistent(s, now, create);
      assert ConfirmationStep(s, response, now, create) == CreateStep(s, now, create);
    } else {
      assert ConfirmationStep(s, response, now, create).0 in {DefaultState(now), Failed(s, now)};
    }
  }

  lemma ActiveStepKeepsConsistent(s: CtxState, message: string, normalized: string, now: Instant, create: CreateOutcome)
    requires Consistent(s) && s.activeFlow == CreateTicket
    ensures Consistent(ActiveFlowStep(s, message, normalized, now, create).0)
    ensures RemainingInRange(ActiveFlowStep(s, message, normalized, now, create).1)
  {
    match s.currentStep.value
    case AskingName => NameStepKeepsConsistent(s, message, now);
    case AskingEmail => EmailStepKeepsConsistent(s, message, now);
    case AskingDescription => DescriptionStepKeepsConsistent(s, message, now);
    case AwaitingConfirmation => ConfirmationStepKeepsConsistent(s, normalized, now, create);
  }

  /** An active flow is handled by the step it is at. */
  lemma ProcessActive(s: CtxState, message: string, now: Instant, create: CreateOutcome, status: StatusOutcome)
    requires s.activeFlow != None && !SessionExpired(s, now) && Normalize(message) != "cancelar"
    ensures Process(s, message, now, create, status) == ActiveFlowStep(s, message, Normalize(message), now, create)
  {
  }

  /** "cancelar" on a conversation that has not expired is handled by the cancel step. */
  lemma ProcessCancel(s: CtxState, message: string, now: Instant, create: CreateOutcome, status: StatusOutcome)
    requires !(SessionExpired(s, now) && s.activeFlow != None) && Normalize(message) == "cancelar"
    ensures Process(s, message, now, create, status) == CancelStep(s, now)
  {
  }

  /** An idle conversation is handled by reading the intent. */
  lemma ProcessIdle(s: CtxState, message: string, now: Instant, create: CreateOutcome, status: StatusOutcome)
    requires s.activeFlow == None && Normalize(message) != "cancelar"
    ensures Process(s, message, now, create, status) == IdleStep(s, message, Normalize(message), now, status)
  {
  }

  /**
   * Every message takes a reachable context to a reachable context, and any
   * count of remaining attempts it reports is between 1 and 4.
   */
  lemma ProcessKeepsConsistent(s: CtxState, message: string, now: Instant, create: CreateOutcome, status: StatusOutcome)
    requires Consistent(s)
    ensures Consistent(Process(s, message, now, create, status).0)
    ensures RemainingInRange(Process(s, message, now, create, status).1)
  {
    if SessionExpired(s, now) && s.activeFlow != None {
      ExpiredFlowRestarts(s, message, now, create, status);
    } else if Normalize(message) == "cancelar" {
      CancelLeavesIdle(s, message, now, create, status);
    } else if s.activeFlow != None {
      ActiveMessageKeepsConsistent(s, message, now, create, status);
    } else {
      IdleMessageKeepsConsistent(s, message, now, create, status);
    }
  }

  lemma ActiveMessageKeepsConsistent(s: CtxState, message: string, now: Instant, create: CreateOutcome, status: StatusOutcome)
    requires Consistent(s) && s.activeFlow != None && !SessionExpired(s, now) && Normalize(message) != "cancelar"
    ensures Consistent(Process(s, message, now, create, status).0)
    ensures RemainingInRange(Process(s, message, now, create, status).1)
  {
    ProcessActive(s, message, now, create, status);
    ActiveStepKeepsConsistent(s, message, Normalize(message), now, create);
  }

  lemma IdleMessageKeepsConsistent(s: CtxState, message: string, now: Instant, create: CreateOutcome, status: StatusOutcome)
    requires Consistent(s) && s.activeFlow == None && Normalize(message) != "cancelar"
    ensures Consistent(Process(s, message, now, create, status).0)
    ensures RemainingInRange(Process(s, message, now, create, status).1)
  {
    ProcessIdle(s, message, now, create, status);
  }

  /** A new or reset context is reachable. */
  lemma DefaultStateConsistent(now: Instant)
    ensures Consistent(DefaultState(now))
  {
  }

  /** A stored name, e-mail or description is never blank. */
  lemma StoredFieldsPresent(d: TicketData)
    requires d.name.Some? && NameOk(d.name.value)
    requires d.email.Some? && EmailOk(d.email.value)
    requires d.description.Some? && DescriptionOk(d.description.value)
    ensures d.IsComplete()
  {
    TrimEmptyIffBlank(d.name.value);
    TrimEmptyIffBlank(d.description.value);
    var e := d.email.value;
    EmailAcceptedIff(e);
    var at, dot :| 0 <= at < |e| && 0 <= dot < |e| && EmailSplit(e, at, dot);
    assert IsEmailLocalChar(e[0]);
  }

  /** When the bot asks for confirmation, the draft it would send is complete. */
  lemma ConfirmationDraftComplete(s: CtxState)
    requires Consistent(s) && s.currentStep == Some(AwaitingConfirmation)
    ensures s.ticketData.IsComplete()
  {
    StoredFieldsPresent(s.ticketData);
  }

  // ---------------------------------------------------------------------------
  // Single messages
  // ---------------------------------------------------------------------------

  /** An active flow left idle for more than the timeout is dropped, whatever the message says. */
  lemma ExpiredFlowRestarts(s: CtxState, message: string, now: Instant, create: CreateOutcome, status: StatusOutcome)
    requires s.activeFlow != None && now - s.lastActivity > SessionTimeoutSeconds
    ensures Process(s, message, now, create, status) == (DefaultState(now), SessionExpiredNotice)
  {
  }

  /**
   * "cancelar" (in any case, with surrounding blanks) always leaves the
   * conversation idle; it reports that there was nothing to cancel exactly
   * when no flow was active, and otherwise drops the draft and names the
   * creation flow it cancelled.
   */
  lemma CancelLeavesIdle(s: CtxState, message: string, now: Instant, create: CreateOutcome, status: StatusOutcome)
    requires Normalize(message) == "cancelar"
    ensures var (s', r) := Process(s, message, now, create, status);
            s'.activeFlow == None
            && (r == NothingToCancel <==> s.activeFlow == None)
            && (s.activeFlow != None ==> s' == DefaultState(now))
            && (s.activeFlow == None ==> s' == s)
            && (s.activeFlow == CreateTicket && !SessionExpired(s, now) ==> r == Cancelled("creación de ticket"))
  {
  }

  /** While idle, only a creation request changes the context; lookups and help leave it as it was. */
  lemma IdleChangesOnlyOnCreate(s: CtxState, message: string, now: Instant, create: CreateOutcome, status: StatusOutcome)
    requires s.activeFlow == None
    ensures var (s', r) := Process(s, message, now, create, status);
            (s' == s <==> Normalize(message) == "cancelar" || !IsCreateTicketIntent(Normalize(message)))
            && (s' != s ==>
                  r == AskName
                  && s' == s.(activeFlow := CreateTicket, currentStep := Some(AskingName), ticketData := EmptyTicketData, lastActivity := now))
  {
    if Normalize(message) != "cancelar" {
      ProcessIdle(s, message, now, create, status);
    }
  }

  /** The creation request wins over the status request when a message reads as both. */
  lemma CreateIntentBeatsStatus(s: CtxState, message: string, now: Instant, create: CreateOutcome, status: StatusOutcome)
    requires s.activeFlow == None && Normalize(message) != "cancelar"
    requires IsCreateTicketIntent(Normalize(message)) && IsCheckStatusIntent(Normalize(message))
    ensures Process(s, message, now, create, status).1 == AskName
  {
  }

  /**
   * A status request leaves the context as it was. Without an id in the
   * message it asks for one; otherwise it shows the ticket, names the id that
   * was not found, or reports the failed lookup.
   */
  lemma StatusQueryAnswers(s: CtxState, message: string, now: Instant, create: CreateOutcome, status: StatusOutcome)
    requires s.activeFlow == None && Normalize(message) != "cancelar"
    requires !IsCreateTicketIntent(Normalize(message)) && IsCheckStatusIntent(Normalize(message))
    ensures var (s', r) := Process(s, message, now, create, status);
            s' == s
            && (ExtractTicketId(message).Null? ==> r == AskTicketId)
            && (ExtractTicketId(message).Some? ==>
                  (status.NotFound? ==> r == TicketNotFound(ExtractTicketId(message).value))
                  && (status.LookupThrew? ==> r == StatusLookupFailed)
                  && (status.Found? ==> r == StatusCard(status.ticket, Badge(status.ticket.status))))
  {
    ProcessIdle(s, message, now, create, status);
  }

  /** The three fixed creation phrases add nothing: each contains "ticket" and an action word. */
  lemma CreateIntentIff(m: string)
    ensures IsCreateTicketIntent(m) <==> Contains(m, "ticket") && HasCreateAction(m)
  {
    var words := ["crear", "nuevo", "abrir"];
    forall k | 0 <= k < 3 && Contains(m, words[k] + " ticket")
      ensures Contains(m, words[k]) && Contains(m, "ticket")
    {
      ContainsParts(m, words[k], " ticket");
      assert words[k] + " ticket" == (words[k] + " ") + "ticket";
      ContainsParts(m, words[k] + " ", "ticket");
    }
    assert words[0] + " ticket" == "crear ticket";
    assert words[1] + " ticket" == "nuevo ticket";
    assert words[2] + " ticket" == "abrir ticket";
  }

  /** An affirmative word anywhere in the answer confirms, even beside a negative one. */
  lemma AffirmativeWins(s: CtxState, response: string, now: Instant, create: CreateOutcome)
    requires IsAffirmative(response)
    ensures ConfirmationStep(s, response, now, create) == CreateStep(s, now, create)
  {
  }

  /** "no es correcto" contains "no" and also "correcto", so it confirms the ticket. */
  lemma NegatedAnswerConfirms(s: CtxState, now: Instant, create: CreateOutcome)
    ensures IsNegative("no es correcto")
    ensures ConfirmationStep(s, "no es correcto", now, create) == CreateStep(s, now, create)
  {
    var r := "no es correcto";
    assert OccursAt(r, Negatives[0], 0);
    assert OccursAt(r, Affirmatives[5], 6);
    assert IsAffirmative(r);
  }

  /** A created ticket ends the flow; a failed creation keeps the draft for another try. */
  lemma CreateOutcomes(s: CtxState, now: Instant, create: CreateOutcome)
    requires Consistent(s) && s.currentStep == Some(AwaitingConfirmation)
    ensures var (s', r) := CreateStep(s, now, create);
            (create.CreateReturned? ==> s' == DefaultState(now) && r == TicketCreated(create.id))
            && (!create.CreateReturned? ==>
                  (s'.activeFlow == CreateTicket <==> s.failedAttempts < ConversationContext.MaxFailedAttempts - 1)
                  && (s'.activeFlow == CreateTicket ==> s'.ticketData == s.ticketData && s'.currentStep == s.currentStep))
  {
  }

  // ---------------------------------------------------------------------------
  // Runs of messages
  // ---------------------------------------------------------------------------

  /** The final context and the replies after feeding `messages` one by one, with the clock at `now` and fixed remote answers. */
  function Run(s: CtxState, messages: seq<string>, now: Instant, create: CreateOutcome, status: StatusOutcome): (r: (CtxState, seq<Reply>))
    ensures |r.1| == |messages|
    decreases |messages|
  {
    if messages == [] then (s, [])
    else
      var (s1, reply) := Process(s, messages[0], now, create, status);
      var (s2, replies) := Run(s1, messages[1..], now, create, status);
      (s2, [reply] + replies)
  }

  /** The first message is handled first, from the starting context. */
  lemma RunCons(s: CtxState, m: string, rest: seq<string>, now: Instant, create: CreateOutcome, status: StatusOutcome)
    ensures var (s1, r1) := Process(s, m, now, create, status);
            var (s2, rs) := Run(s1, rest, now, create, status);
            Run(s, [m] + rest, now, create, status) == (s2, [r1] + rs)
  {
    assert ([m] + rest)[0] == m;
    assert ([m] + rest)[1..] == rest;
  }

  /** A run from a reachable context ends in a reachable context. */
  lemma {:induction false} RunKeepsConsistent(s: CtxState, messages: seq<string>, now: Instant, create: CreateOutcome, status: StatusOutcome)
    requires Consistent(s)
    ensures Consistent(Run(s, messages, now, create, status).0)
    decreases |messages|
  {
    if messages != [] {
      ProcessKeepsConsistent(s, messages[0], now, create, status);
      RunKeepsConsistent(Process(s, messages[0], now, create, status).0, messages[1..], now, create, status);
    }
  }

  /**
   * A rejected name below the cap costs one attempt, stamps the activity and
   * reports how many are left, at any instant before the session expires.
   */
  lemma RejectedName(s: CtxState, name: string, now: Instant, create: CreateOutcome, status: StatusOutcome)
    requires s.activeFlow == CreateTicket && s.currentStep == Some(AskingName) && !SessionExpired(s, now)
    requires ValidateName(name).Invalid? && Normalize(name) != "cancelar"
    ensures Process(s, name, now, create, status)
            == if s.failedAttempts + 1 < ConversationContext.MaxFailedAttempts
               then (s.(failedAttempts := s.failedAttempts + 1, lastActivity := now),
                     NameRejected(ValidateName(name).error, ConversationContext.MaxFailedAttempts - 1 - s.failedAttempts))
               else (DefaultState(now), TooManyAttempts(AskingName))
  {
    ProcessActive(s, name, now, create, status);
  }

  /**
   * Rejected names count down the remaining attempts one by one; the one that
   * reaches the cap ends the flow and the draft is dropped.
   */
  lemma {:induction false} RejectedNamesUntilCap(s: CtxState, names: seq<string>, now: Instant, create: CreateOutcome, status: StatusOutcome)
    requires s.activeFlow == CreateTicket && s.currentStep == Some(AskingName) && !SessionExpired(s, now)
    requires 0 <= s.failedAttempts < ConversationContext.MaxFailedAttempts
    requires s.failedAttempts + |names| == ConversationContext.MaxFailedAttempts
    requires forall n | n in names :: ValidateName(n).Invalid? && Normalize(n) != "cancelar"
    ensures var (s', replies) := Run(s, names, now, create, status);
            s' == DefaultState(now) && replies[|names| - 1] == TooManyAttempts(AskingName)
            && forall k :: 0 <= k < |names| - 1 ==>
                 replies[k].NameRejected? && replies[k].remaining == ConversationContext.MaxFailedAttempts - 1 - s.failedAttempts - k
    decreases |names|
  {
    if |names| == 1 {
      LastRejectedName(s, names[0], now, create, status);
      assert names == [names[0]];
    } else {
      var s1 := s.(failedAttempts := s.failedAttempts + 1, lastActivity := now);
      FirstRejectedName(s, names, now, create, status);
      RejectedNamesUntilCap(s1, names[1..], now, create, status);
      var replies := Run(s, names, now, create, status).1;
      var rest := Run(s1, names[1..], now, create, status).1;
      forall k | 1 <= k < |names|
        ensures replies[k] == rest[k - 1]
      {
      }
    }
  }

  /** A rejected name below the cap, then the rest of the run from one more failure. */
  lemma FirstRejectedName(s: CtxState, names: seq<string>, now: Instant, create: CreateOutcome, status: StatusOutcome)
    requires s.activeFlow == CreateTicket && s.currentStep == Some(AskingName) && !SessionExpired(s, now)
    requires 0 <= s.failedAttempts < ConversationContext.MaxFailedAttempts - 1 && names != []
    requires ValidateName(names[0]).Invalid? && Normalize(names[0]) != "cancelar"
    ensures var s1 := s.(failedAttempts := s.failedAttempts + 1, lastActivity := now);
            var (s2, rest) := Run(s1, names[1..], now, create, status);
            Run(s, names, now, create, status)
            == (s2, [NameRejected(ValidateName(names[0]).error, ConversationContext.MaxFailedAttempts - 1 - s.failedAttempts)] + rest)
  {
    RejectedName(s, names[0], now, create, status);
    RunCons(s, names[0], names[1..], now, create, status);
    assert names == [names[0]] + names[1..];
  }

  /** The rejected name that reaches the cap ends the flow. */
  lemma LastRejectedName(s: CtxState, name: string, now: Instant, create: CreateOutcome, status: StatusOutcome)
    requires s.activeFlow == CreateTicket && s.currentStep == Some(AskingName) && !SessionExpired(s, now)
    requires s.failedAttempts == ConversationContext.MaxFailedAttempts - 1
    requires ValidateName(name).Invalid? && Normalize(name) != "cancelar"
    ensures Run(s, [name], now, create, status) == (DefaultState(now), [TooManyAttempts(AskingName)])
  {
    RejectedName(s, name, now, create, status);
    RunCons(s, name, [], now, create, status);
    assert [name] + [] == [name];
    assert [TooManyAttempts(AskingName)] + [] == [TooManyAttempts(AskingName)];
  }

  /** Five rejected names in a row, from a fresh name step, cancel the flow on the fifth. */
  lemma FiveRejectedNamesCancel(s: CtxState, names: seq<string>, now: Instant, create: CreateOutcome, status: StatusOutcome)
    requires s.activeFlow == CreateTicket && s.currentStep == Some(AskingName) && s.failedAttempts == 0 && !SessionExpired(s, now)
    requires |names| == 5
    requires forall n | n in names :: ValidateName(n).Invalid? && Normalize(n) != "cancelar"
    ensures var (s', replies) := Run(s, names, now, create, status);
            s' == DefaultState(now) && replies[4] == TooManyAttempts(AskingName)
            && forall k :: 0 <= k < 4 ==> replies[k].NameRejected? && replies[k].remaining == 4 - k
  {
    RejectedNamesUntilCap(s, names, now, create, status);
  }

  /** A creation request while idle opens the flow at the name step with an empty draft. */
  lemma CreateRequestStarts(s: CtxState, request: string, now: Instant, create: CreateOutcome, status: StatusOutcome)
    requires s.activeFlow == None
    requires IsCreateTicketIntent(Normalize(request)) && Normalize(request) != "cancelar"
    ensures Process(s, request, now, create, status)
            == (s.(activeFlow := CreateTicket, currentStep := Some(AskingName), ticketData := EmptyTicketData, lastActivity := now), AskName)
  {
    ProcessIdle(s, request, now, create, status);
  }

  /** An accepted name is stored trimmed, clears the failures and moves on to the e-mail. */
  lemma AcceptedName(s: CtxState, name: string, now: Instant, create: CreateOutcome, status: StatusOutcome)
    requires s.activeFlow == CreateTicket && s.currentStep == Some(AskingName) && !SessionExpired(s, now)
    requires ValidateName(name).Valid? && Normalize(name) != "cancelar"
    ensures Process(s, name, now, create, status)
            == (s.(failedAttempts := 0, ticketData := s.ticketData.(name := Some(Trim(name))),
                   currentStep := Some(AskingEmail), lastActivity := now),
                Greeting(Trim(name)))
  {
    ProcessActive(s, name, now, create, status);
  }

  /** An accepted address is stored trimmed and lower-cased and moves on to the description. */
  lemma AcceptedEmail(s: CtxState, email: string, now: Instant, create: CreateOutcome, status: StatusOutcome)
    requires s.activeFlow == CreateTicket && s.currentStep == Some(AskingEmail) && !SessionExpired(s, now)
    requires EmailVerdict(email).Valid? && Normalize(email) != "cancelar"
    ensures Process(s, email, now, create, status)
            == (s.(failedAttempts := 0, ticketData := s.ticketData.(email := Some(Lower(Trim(email)))),
                   currentStep := Some(AskingDescription), lastActivity := now),
                AskDescription)
  {
    ProcessActive(s, email, now, create, status);
  }

  /** An accepted description is stored trimmed and the summary is shown for confirmation. */
  lemma AcceptedDescription(s: CtxState, description: string, now: Instant, create: CreateOutcome, status: StatusOutcome)
    requires s.activeFlow == CreateTicket && s.currentStep == Some(AskingDescription) && !SessionExpired(s, now)
    requires ValidateDescription(description).Valid? && Normalize(description) != "cancelar"
    ensures var data := s.ticketData.(description := Some(Trim(description)));
            Process(s, description, now, create, status)
            == (s.(failedAttempts := 0, ticketData := data, currentStep := Some(AwaitingConfirmation), lastActivity := now),
                Summary(data))
  {
    ProcessActive(s, description, now, create, status);
  }

  /** A yes at the confirmation step sends the draft; a created ticket ends the flow. */
  lemma ConfirmedCreates(s: CtxState, yes: string, now: Instant, id: string, status: StatusOutcome)
    requires s.activeFlow == CreateTicket && s.currentStep == Some(AwaitingConfirmation) && !SessionExpired(s, now)
    requires IsAffirmative(Normalize(yes)) && Normalize(yes) != "cancelar"
    ensures Process(s, yes, now, CreateReturned(id), status) == (DefaultState(now), TicketCreated(id))
  {
    var n := Normalize(yes);
    var c := CreateReturned(id);
    ProcessActive(s, yes, now, c, status);
    AffirmativeWins(s, n, now, c);
    calc {
      ActiveFlowStep(s, yes, n, now, c);
      ConfirmationStep(s, n, now, c);
      CreateStep(s, now, c);
    }
  }

  /**
   * The whole creation conversation: a creation request, an accepted name,
   * address and description, then a yes. The draft holds the trimmed name,
   * the trimmed lower-cased address and the trimmed description; a created
   * ticket is announced by its id and the conversation is idle again.
   */
  lemma HappyPath(s: CtxState, request: string, name: string, email: string, description: string, yes: string,
                  now: Instant, id: string, status: StatusOutcome)
    requires s.activeFlow == None
    requires IsCreateTicketIntent(Normalize(request)) && Normalize(request) != "cancelar"
    requires ValidateName(name).Valid? && Normalize(name) != "cancelar"
    requires EmailVerdict(email).Valid? && Normalize(email) != "cancelar"
    requires ValidateDescription(description).Valid? && Normalize(description) != "cancelar"
    requires IsAffirmative(Normalize(yes)) && Normalize(yes) != "cancelar"
    ensures var c := CreateReturned(id);
            var draft := TicketData(Some(Trim(name)), Some(Lower(Trim(email))), Some(Trim(description)));
            var (s1, r1) := Process(s, request, now, c, status);
            var (s2, r2) := Process(s1, name, now, c, status);
            var (s3, r3) := Process(s2, email, now, c, status);
            var (s4, r4) := Process(s3, description, now, c, status);
            var (s5, r5) := Process(s4, yes, now, c, status);
            [r1, r2, r3, r4, r5] == [AskName, Greeting(Trim(name)), AskDescription, Summary(draft), TicketCreated(id)]
            && s4.currentStep == Some(AwaitingConfirmation) && s4.ticketData == draft && s4.failedAttempts == 0
            && s5 == DefaultState(now)
  {
    var c := CreateReturned(id);
    var draft := TicketData(Some(Trim(name)), Some(Lower(Trim(email))), Some(Trim(description)));
    CreateRequestStarts(s, request, now, c, status);
    var s1 := s.(activeFlow := CreateTicket, currentStep := Some(AskingName), ticketData := EmptyTicketData, lastActivity := now);
    AcceptedName(s1, name, now, c, status);
    var s2 := s1.(failedAttempts := 0, ticketData := EmptyTicketData.(name := Some(Trim(name))), currentStep := Some(AskingEmail));
    AcceptedEmail(s2, email, now, c, status);
    var s3 := s2.(ticketData := s2.ticketData.(email := Some(Lower(Trim(email)))), currentStep := Some(AskingDescription));
    AcceptedDescription(s3, description, now, c, status);
    var s4 := s3.(ticketData := draft, currentStep := Some(AwaitingConfirmation));
    ConfirmedCreates(s4, yes, now, id, status);
  }
}
