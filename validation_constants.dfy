// Limits shared by the validators and the conversation model.

module ValidationConstants {
  const MinNameLength: int := 2
  const MaxNameLength: int := 100
  /** The longest e-mail address accepted (the limit of RFC 5321 paths). */
  const MaxEmailLength: int := 254
  const MinDescriptionLength: int := 10
  const MaxDescriptionLength: int := 1000
  const MaxMessageLength: int := 2000
  const MaxConversationIdLength: int := 100
  /** Inactivity after which an active flow is abandoned. */
  const SessionTimeoutMinutes: int := 30
  const SessionTimeoutSeconds: int := SessionTimeoutMinutes * 60
  /** Failed inputs within one step before the flow is cancelled. */
  const MaxFailedAttempts: int := 5
}
