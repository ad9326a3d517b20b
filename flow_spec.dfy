// What ConversationFlowService does with one message, as a function of the
// context's state: the new state and the reply. The remote ticket service is
// an oracle: its answer for this message is a parameter.

module FlowSpec {
  import opened Common
  import opened Text
  import opened ValidationConstants
  import opened Validation
  import opened Models

  // ---------------------------------------------------------------------------
  // The remote answers and the replies
  // ---------------------------------------------------------------------------

  /** What the ticket service's create call gave back for this message. */
  datatype CreateOutcome = CreateReturned(id: string) | CreateReturnedNull | CreateThrew

  /** The ticket as the status call reports it. */
  datatype TicketView = TicketView(
    id: string, name: string, email: string, description: string,
    status: Nullable<string>, createdAt: Instant)

  /** What the ticket service's status call gave back for this message. */
  datatype StatusOutcome = Found(ticket: TicketView) | NotFound | LookupThrew

  /** The colour shown next to a ticket's status. */
  datatype StatusBadge = Green | Yellow | Red | Orange | White

  /** The bot's answer, with the data the text carries. */
  datatype Reply =
    | SessionExpiredNotice
    | NothingToCancel
    | Cancelled(flowName: string)
    | Help
    | AskTicketId
    | StatusCard(ticket: TicketView, badge: StatusBadge)
    | TicketNotFound(ticketId: string)
    | StatusLookupFailed
    | AskName
    | NameRejected(nameError: NameError, remaining: int)
    | Greeting(name: string)
    | EmailRejected(emailError: EmailError, remaining: int)
    | AskDescription
    | DescriptionRejected(descriptionError: DescriptionError, remaining: int)
    | Summary(data: TicketData)
    | NotUnderstood(remaining: int)
    | TicketDiscarded
    | TicketCreated(ticketId: string)
    | CreateFailed
    | CreateFailedPersistently
    | ServiceError(remaining: int)
    | ServiceErrorPersistent
    | TooManyAttempts(step: CreateTicketStep)

  // ---------------------------------------------------------------------------
  // Reading the message
  // ---------------------------------------------------------------------------

  /** The trimmed, lower-cased message that commands and intents are read from. */
  function Normalize(message: string): string {
    Lower(Trim(message))
  }

  predicate HasCreateAction(m: string) {
    Contains(m, "crear") || Contains(m, "nuevo") || Contains(m, "abrir")
    || Contains(m, "quiero") || Contains(m, "necesito") || Contains(m, "generar")
  }

  /** "ticket" together with an action word, or one of three fixed phrases. */
  predicate IsCreateTicketIntent(m: string) {
    (Contains(m, "ticket") && HasCreateAction(m))
    || Contains(m, "crear ticket") || Contains(m, "nuevo ticket") || Contains(m, "abrir ticket")
  }

  predicate IsCheckStatusIntent(m: string) {
    Contains(m, "estado") || Contains(m, "consultar") || Contains(m, "ver ticket")
    || Contains(m, "buscar ticket") || Contains(m, "status")
  }

  const Affirmatives: seq<string> :=
    ["sí", "si", "yes", "confirmar", "confirmo", "correcto", "afirmativo", "dale", "claro", "por supuesto"]

  const Negatives: seq<string> := ["no", "cancelar", "rechazar", "negar"]

  /** Equal to an affirmative word ignoring case, or containing one. */
  predicate IsAffirmative(r: string) {
    exists k | 0 <= k < |Affirmatives| :: EqualsIgnoreCase(r, Affirmatives[k]) || Contains(r, Affirmatives[k])
  }

  predicate IsNegative(r: string) {
    exists k | 0 <= k < |Negatives| :: Contains(r, Negatives[k])
  }

  // ---------------------------------------------------------------------------
  // Ticket ids in free text: the first case-insensitive match of TCK-\d+
  // ---------------------------------------------------------------------------

  /** `TCK-` in any ASCII case followed by at least one ASCII digit (the model's `\d`) starts at `i`. */
  predicate TicketIdAt(s: string, i: nat) {
    i + 4 < |s|
    && (s[i] == 'T' || s[i] == 't') && (s[i + 1] == 'C' || s[i + 1] == 'c')
    && (s[i + 2] == 'K' || s[i + 2] == 'k') && s[i + 3] == '-' && IsAsciiDigit(s[i + 4])
  }

  /** End of the run of ASCII digits that starts at `j`. */
  function DigitRunEnd(s: string, j: nat): (k: nat)
    requires j <= |s|
    ensures j <= k <= |s|
    ensures forall m :: j <= m < k ==> IsAsciiDigit(s[m])
    ensures k == |s| || !IsAsciiDigit(s[k])
    decreases |s| - j
  {
    if j < |s| && IsAsciiDigit(s[j]) then DigitRunEnd(s, j + 1) else j
  }

  /** The leftmost match at or after `from`. */
  function FindTicketId(s: string, from: nat): (r: Nullable<nat>)
    requires from <= |s|
    ensures r.Some? ==> from <= r.value < |s| && TicketIdAt(s, r.value)
    ensures r.Some? ==> forall i :: from <= i < r.value ==> !TicketIdAt(s, i)
    ensures r.Null? ==> forall i :: from <= i < |s| ==> !TicketIdAt(s, i)
    decreases |s| - from
  {
    if from == |s| then Null
    else if TicketIdAt(s, from) then Some(from)
    else FindTicketId(s, from + 1)
  }

  /** An id in canonical form: `TCK-` and one or more digits. */
  predicate IsTicketIdShape(id: string) {
    |id| >= 5 && id[..4] == "TCK-" && forall k :: 4 <= k < |id| ==> IsAsciiDigit(id[k])
  }

  function ExtractTicketId(message: string): (r: Nullable<string>)
    ensures r.Null? <==> forall i :: 0 <= i < |message| ==> !TicketIdAt(message, i)
    ensures r.Some? ==> IsTicketIdShape(r.value)
    ensures r.Some? ==> exists i :: 0 <= i < |message| && TicketIdAt(message, i)
                          && (forall j :: 0 <= j < i ==> !TicketIdAt(message, j))
                          && r.value == Upper(message[i..DigitRunEnd(message, i + 4)])
  {
    match FindTicketId(message, 0)
    case Null => Null
    case Some(i) =>
      var id := Upper(message[i..DigitRunEnd(message, i + 4)]);
      assert id[..4] == "TCK-";
      Some(id)
  }

  // ---------------------------------------------------------------------------
  // The steps
  // ---------------------------------------------------------------------------

  /** The state after a failed input: one more attempt, activity stamped. */
  function Failed(s: CtxState, now: Instant): CtxState {
    s.(failedAttempts := s.failedAttempts + 1, lastActivity := now)
  }

  /** The failed input reached the cap. */
  predicate CapReached(s: CtxState) {
    s.failedAttempts + 1 >= ConversationContext.MaxFailedAttempts
  }

  function Remaining(s: CtxState): int {
    ConversationContext.MaxFailedAttempts - (s.failedAttempts + 1)
  }

  function CancelStep(s: CtxState, now: Instant): (CtxState, Reply) {
    if s.activeFlow == None then (s, NothingToCancel)
    else
      var flowName := if s.activeFlow == CreateTicket then "creación de ticket" else "consulta";
      (DefaultState(now), Cancelled(flowName))
  }

  function StartCreateTicketFlow(s: CtxState, now: Instant): (CtxState, Reply) {
    (s.(activeFlow := CreateTicket, currentStep := Some(AskingName), ticketData := EmptyTicketData, lastActivity := now),
     AskName)
  }

  function NameStep(s: CtxState, name: string, now: Instant): (CtxState, Reply) {
    match ValidateName(name)
    case Invalid(e) =>
      if CapReached(s) then (DefaultState(now), TooManyAttempts(AskingName))
      else (Failed(s, now), NameRejected(e, Remaining(s)))
    case Valid =>
      var stored := Trim(name);
      (s.(failedAttempts := 0, ticketData := s.ticketData.(name := Some(stored)),
          currentStep := Some(AskingEmail), lastActivity := now),
       Greeting(stored))
  }

  function EmailStep(s: CtxState, email: string, now: Instant): (CtxState, Reply) {
    match EmailVerdict(email)
    case Invalid(e) =>
      if CapReached(s) then (DefaultState(now), TooManyAttempts(AskingEmail))
      else (Failed(s, now), EmailRejected(e, Remaining(s)))
    case Valid =>
      (s.(failedAttempts := 0, ticketData := s.ticketData.(email := Some(Lower(Trim(email)))),
          currentStep := Some(AskingDescription), lastActivity := now),
       AskDescription)
  }

  function DescriptionStep(s: CtxState, description: string, now: Instant): (CtxState, Reply) {
    match ValidateDescription(description)
    case Invalid(e) =>
      if CapReached(s) then (DefaultState(now), TooManyAttempts(AskingDescription))
      else (Failed(s, now), DescriptionRejected(e, Remaining(s)))
    case Valid =>
      var data := s.ticketData.(description := Some(Trim(description)));
      (s.(failedAttempts := 0, ticketData := data, currentStep := Some(AwaitingConfirmation), lastActivity := now),
       Summary(data))
  }

  function CreateStep(s: CtxState, now: Instant, outcome: CreateOutcome): (CtxState, Reply) {
    match outcome
    case CreateReturned(id) => (DefaultState(now), TicketCreated(id))
    case CreateReturnedNull =>
      if CapReached(s) then (DefaultState(now), CreateFailedPersistently)
      else (Failed(s, now), CreateFailed)
    case CreateThrew =>
      if CapReached(s) then (DefaultState(now), ServiceErrorPersistent)
      else (Failed(s, now), ServiceError(Remaining(s)))
  }

  function ConfirmationStep(s: CtxState, response: string, now: Instant, outcome: CreateOutcome): (CtxState, Reply) {
    if IsAffirmative(response) then CreateStep(s, now, outcome)
    else if IsNegative(response) then (DefaultState(now), TicketDiscarded)
    else if CapReached(s) then (DefaultState(now), TooManyAttempts(AwaitingConfirmation))
    else (Failed(s, now), NotUnderstood(Remaining(s)))
  }

  function ActiveFlowStep(s: CtxState, message: string, normalized: string, now: Instant, outcome: CreateOutcome): (CtxState, Reply) {
    if s.activeFlow != CreateTicket then (s, Help)
    else match s.currentStep
      case Some(AskingName) => NameStep(s, message, now)
      case Some(AskingEmail) => EmailStep(s, message, now)
      case Some(AskingDescription) => DescriptionStep(s, message, now)
      case Some(AwaitingConfirmation) => ConfirmationStep(s, normalized, now, outcome)
      case _ => (s, Help)
  }

  /** The colour for a status, read in lower case. */
  function Badge(status: Nullable<string>): StatusBadge {
    match status
    case Null => White
    case Some(st) =>
      var low := Lower(st);
      if low == "open" || low == "abierto" then Green
      else if low == "in progress" || low == "en progreso" then Yellow
      else if low == "closed" || low == "cerrado" then Red
      else if low == "pending" || low == "pendiente" then Orange
      else White
  }

  function StatusReply(ticketId: string, outcome: StatusOutcome): Reply {
    match outcome
    case Found(t) => StatusCard(t, Badge(t.status))
    case NotFound => TicketNotFound(ticketId)
    case LookupThrew => StatusLookupFailed
  }

  function IdleStep(s: CtxState, message: string, normalized: string, now: Instant, status: StatusOutcome): (CtxState, Reply) {
    if IsCreateTicketIntent(normalized) then StartCreateTicketFlow(s, now)
    else if IsCheckStatusIntent(normalized) then
      match ExtractTicketId(message)
      case Some(id) => (s, StatusReply(id, status))
      case Null => (s, AskTicketId)
    else (s, Help)
  }

  /** `ProcessMessageAsync` on a context in state `s`: the new state and the reply. */
  function Process(s: CtxState, message: string, now: Instant, create: CreateOutcome, status: StatusOutcome): (CtxState, Reply) {
    if SessionExpired(s, now) && s.activeFlow != None then (DefaultState(now), SessionExpiredNotice)
    else
      var normalized := Normalize(message);
      if normalized == "cancelar" then CancelStep(s, now)
      else if s.activeFlow != None then ActiveFlowStep(s, message, normalized, now, create)
      else IdleStep(s, message, normalized, now, status)
  }
}
