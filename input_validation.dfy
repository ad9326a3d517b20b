// InputValidationService: ordered guard chains over the user's text.
// Each validator trims its input, then reports the FIRST check that fails.

module Validation {
  import opened Common
  import opened Text
  import opened ValidationConstants

  /** Outcome of a sanitizer: the cleaned value, or why the input was refused. */
  datatype Sanitized<E> = Accepted(value: string) | Rejected(error: E)

  /** Outcome of a field validator. */
  datatype Verdict<E> = Valid | Invalid(error: E)

  datatype ConversationIdError = IdRequired | IdTooLong | IdHasInvalidChars
  datatype MessageError = MessageEmpty | MessageTooLong | MessageNotAllowed
  datatype NameError = NameTooShort | NameTooLong | NameHasInvalidChars | NameTooRepetitive | NameLooksLikeCommand
  datatype EmailError = EmailTooLong | EmailBadFormat | EmailTypo(suggestion: string)
  datatype DescriptionError = DescriptionTooShort | DescriptionTooLong | DescriptionTooFewLetters | DescriptionNotAllowed

  // ---------------------------------------------------------------------------
  // The four patterns
  // ---------------------------------------------------------------------------

  predicate IsConversationIdChar(c: char) {
    IsAsciiLetter(c) || IsAsciiDigit(c) || c == '-' || c == '_'
  }

  /** `^[a-zA-Z0-9\-_]+$` */
  predicate MatchesConversationIdPattern(s: string) {
    |s| > 0 && forall i :: 0 <= i < |s| ==> IsConversationIdChar(s[i])
  }

  predicate IsNameChar(c: char) {
    IsLetter(c) || IsWhiteSpace(c) || c == '-' || c == '\'' || c == '.'
  }

  /** `^[\p{L}\s\-'\.]+$` */
  predicate MatchesNamePattern(s: string) {
    |s| > 0 && forall i :: 0 <= i < |s| ==> IsNameChar(s[i])
  }

  predicate IsEmailLocalChar(c: char) {
    IsAsciiLetter(c) || IsAsciiDigit(c) || c == '.' || c == '_' || c == '%' || c == '+' || c == '-'
  }

  predicate IsEmailDomainChar(c: char) {
    IsAsciiLetter(c) || IsAsciiDigit(c) || c == '.' || c == '-'
  }

  /**
   * `s` splits as local `@` domain `.` tld at the indices `at` and `dot`:
   * a non-empty local part, a non-empty domain, a top-level domain of at least
   * two ASCII letters.
   */
  predicate EmailSplit(s: string, at: int, dot: int) {
    0 < at && at + 1 < dot && dot + 2 < |s| && s[at] == '@' && s[dot] == '.'
    && (forall i :: 0 <= i < at ==> IsEmailLocalChar(s[i]))
    && (forall i :: at < i < dot ==> IsEmailDomainChar(s[i]))
    && (forall i :: dot < i < |s| ==> IsAsciiLetter(s[i]))
  }

  /** `^[a-zA-Z0-9._%+-]+@[a-zA-Z0-9.-]+\.[a-zA-Z]{2,}$` */
  predicate MatchesEmailPattern(s: string) {
    exists at, dot | 0 <= at < |s| && 0 <= dot < |s| :: EmailSplit(s, at, dot)
  }

  /** End of the run of word characters that starts at `j`. */
  function WordRunEnd(s: string, j: nat): (k: nat)
    requires j <= |s|
    ensures j <= k <= |s|
    ensures forall m :: j <= m < k ==> IsWordChar(s[m])
    ensures k == |s| || !IsWordChar(s[k])
    decreases |s| - j
  {
    if j < |s| && IsWordChar(s[j]) then WordRunEnd(s, j + 1) else j
  }

  /** End of the run of white space that starts at `j`. */
  function SpaceRunEnd(s: string, j: nat): (k: nat)
    requires j <= |s|
    ensures j <= k <= |s|
    ensures forall m :: j <= m < k ==> IsWhiteSpace(s[m])
    ensures k == |s| || !IsWhiteSpace(s[k])
    decreases |s| - j
  {
    if j < |s| && IsWhiteSpace(s[j]) then SpaceRunEnd(s, j + 1) else j
  }

  /**
   * `on\w+\s*=` starting at `i`. Since `=` is neither a word character nor
   * white space, the only candidate match takes both runs greedily.
   */
  predicate EventHandlerAt(s: string, i: nat) {
    OccursAt(s, "on", i)
    && var j := WordRunEnd(s, i + 2);
    && j > i + 2
    && var k := SpaceRunEnd(s, j);
    && k < |s| && s[k] == '='
  }

  /** `<\s*name` starting at `i`. */
  predicate TagAt(s: string, i: nat, name: string) {
    i < |s| && s[i] == '<' && OccursAt(s, name, SpaceRunEnd(s, i + 1))
  }

  /** One of the alternatives of the dangerous pattern starts at `i` of the lower-cased text `s`. */
  predicate DangerousAt(s: string, i: nat) {
    OccursAt(s, "<script", i) || OccursAt(s, "javascript:", i) || EventHandlerAt(s, i)
    || TagAt(s, i, "iframe") || TagAt(s, i, "object")
  }

  /** `<script|javascript:|on\w+\s*=|<\s*iframe|<\s*object`, case-insensitively, anywhere in `s`. */
  predicate IsDangerous(s: string) {
    exists i | 0 <= i < |s| :: DangerousAt(Lower(s), i)
  }

  // ---------------------------------------------------------------------------
  // Counting and filtering
  // ---------------------------------------------------------------------------

  /** `s.Count(char.IsLetter)` */
  function CountLetters(s: string): (n: nat)
    ensures n <= |s|
    ensures n == 0 <==> forall i :: 0 <= i < |s| ==> !IsLetter(s[i])
    ensures n == |s| <==> forall i :: 0 <= i < |s| ==> IsLetter(s[i])
  {
    if s == [] then 0 else (if IsLetter(s[0]) then 1 else 0) + CountLetters(s[1..])
  }

  /** `s.Distinct().Count()` */
  function DistinctCount(s: string): nat {
    |set i | 0 <= i < |s| :: s[i]|
  }

  predicate KeptBySanitizer(c: char) {
    !IsControl(c) || c == '\n' || c == '\r'
  }

  /** `s.Where(c => !char.IsControl(c) || c == '\n' || c == '\r')` */
  function RemoveControls(s: string): (r: string)
    ensures |r| <= |s|
    ensures forall i :: 0 <= i < |r| ==> KeptBySanitizer(r[i])
  {
    if s == [] then []
    else if KeptBySanitizer(s[0]) then [s[0]] + RemoveControls(s[1..])
    else RemoveControls(s[1..])
  }

  lemma {:induction false} RemoveControlsAppend(a: string, b: string)
    ensures RemoveControls(a + b) == RemoveControls(a) + RemoveControls(b)
  {
    if a == [] {
      assert a + b == b;
    } else {
      assert (a + b)[0] == a[0] && (a + b)[1..] == a[1..] + b;
      RemoveControlsAppend(a[1..], b);
    }
  }

  /** Text without control characters other than line breaks comes through unchanged. */
  lemma {:induction false} RemoveControlsKeeps(s: string)
    requires forall i :: 0 <= i < |s| ==> KeptBySanitizer(s[i])
    ensures RemoveControls(s) == s
  {
    if s != [] {
      RemoveControlsKeeps(s[1..]);
    }
  }

  /** Removing the one control character between two clean pieces joins them. */
  lemma {:induction false} RemoveOneControl(a: string, c: char, b: string)
    requires forall i :: 0 <= i < |a| ==> KeptBySanitizer(a[i])
    requires forall i :: 0 <= i < |b| ==> KeptBySanitizer(b[i])
    requires !KeptBySanitizer(c)
    ensures RemoveControls(a + [c] + b) == a + b
  {
    var one := [c];
    assert one[1..] == [];
    assert RemoveControls(one) == RemoveControls(one[1..]);
    RemoveControlsAppend(a + one, b);
    RemoveControlsAppend(a, one);
    RemoveControlsKeeps(a);
    RemoveControlsKeeps(b);
  }

  // ---------------------------------------------------------------------------
  // Sanitizers
  // ---------------------------------------------------------------------------

  function ValidateConversationId(conversationId: Nullable<string>): (r: Sanitized<ConversationIdError>)
    ensures r == Rejected(IdRequired) <==> conversationId.Null? || IsBlank(conversationId.value)
    ensures r.Accepted? ==> r.value == Trim(conversationId.value)
    ensures r.Accepted? ==> 1 <= |r.value| <= MaxConversationIdLength
    ensures r.Accepted? ==> forall i :: 0 <= i < |r.value| ==> IsConversationIdChar(r.value[i])
  {
    if conversationId.Null? || IsBlank(conversationId.value) then Rejected(IdRequired)
    else
      TrimEmptyIffBlank(conversationId.value);
      var trimmed := Trim(conversationId.value);
      if |trimmed| > MaxConversationIdLength then Rejected(IdTooLong)
      else if !MatchesConversationIdPattern(trimmed) then Rejected(IdHasInvalidChars)
      else Accepted(trimmed)
  }

  /** A conversation id is accepted exactly when its trim is 1 to 100 identifier characters. */
  lemma ConversationIdAcceptedIff(conversationId: Nullable<string>)
    ensures ValidateConversationId(conversationId).Accepted?
        <==> conversationId.Some?
             && 1 <= |Trim(conversationId.value)| <= MaxConversationIdLength
             && forall i :: 0 <= i < |Trim(conversationId.value)| ==> IsConversationIdChar(Trim(conversationId.value)[i])
  {
    if conversationId.Some? {
      TrimEmptyIffBlank(conversationId.value);
    }
  }

  /**
   * The message sanitizer as written: the dangerous-pattern test runs on the
   * trimmed text BEFORE control characters are removed.
   */
  function ValidateMessage(message: Nullable<string>): (r: Sanitized<MessageError>)
    ensures r == Rejected(MessageEmpty) <==> message.Null? || IsBlank(message.value)
    ensures r == Rejected(MessageTooLong)
            <==> message.Some? && !IsBlank(message.value) && |Trim(message.value)| > MaxMessageLength
    ensures r == Rejected(MessageNotAllowed)
            <==> message.Some? && !IsBlank(message.value) && |Trim(message.value)| <= MaxMessageLength
                 && IsDangerous(Trim(message.value))
    ensures r.Accepted? ==> r.value == RemoveControls(Trim(message.value))
    ensures r.Accepted? ==> |r.value| <= MaxMessageLength
    ensures r.Accepted? ==> forall i :: 0 <= i < |r.value| ==> KeptBySanitizer(r.value[i])
    ensures r.Accepted? ==> !IsDangerous(Trim(message.value))
  {
    if message.Null? || IsBlank(message.value) then Rejected(MessageEmpty)
    else
      var trimmed := Trim(message.value);
      if |trimmed| > MaxMessageLength then Rejected(MessageTooLong)
      else if IsDangerous(trimmed) then Rejected(MessageNotAllowed)
      else Accepted(RemoveControls(trimmed))
  }

  /** One mismatching character rules out an occurrence. */
  lemma Mismatch(s: string, sub: string, i: nat, k: nat)
    requires k < |sub| && i + k < |s| && s[i + k] != sub[k]
    ensures !OccursAt(s, sub, i)
  {
  }

  /** Text that holds `<` only at its start, and no `o` or `j`, starts no dangerous match after position 0. */
  lemma NoDangerWithoutMarkers(low: string)
    requires |low| >= 2 && low[0] == '<' && low[1] != 'i' && low[1] != 'o' && !IsWhiteSpace(low[1])
    requires forall i :: 0 < i < |low| ==> low[i] != '<'
    requires forall i :: 0 <= i < |low| ==> low[i] != 'o' && low[i] != 'j'
    requires !OccursAt(low, "<script", 0)
    ensures forall i :: 0 <= i < |low| ==> !DangerousAt(low, i)
  {
    forall i | 0 <= i < |low| ensures !DangerousAt(low, i) {
      if i > 0 {
        Mismatch(low, "<script", i, 0);
      }
      Mismatch(low, "javascript:", i, 0);
      Mismatch(low, "on", i, 0);
      if low[i] == '<' {
        assert SpaceRunEnd(low, 1) == 1;
        Mismatch(low, "iframe", 1, 0);
        Mismatch(low, "object", 1, 0);
      }
    }
  }

  /**
   * A message is accepted exactly when its trim is non-empty, at most 2000
   * characters and not dangerous; it is then returned trimmed, with its control
   * characters removed.
   */
  lemma MessageAccepted(m: string)
    ensures ValidateMessage(Some(m)).Accepted?
        <==> Trim(m) != [] && |Trim(m)| <= MaxMessageLength && !IsDangerous(Trim(m))
    ensures ValidateMessage(Some(m)).Accepted? ==> ValidateMessage(Some(m)).value == RemoveControls(Trim(m))
  {
    TrimEmptyIffBlank(m);
  }

  /**
   * The sanitizer with the evident intent: remove control characters first and
   * test the text that is actually returned.
   */
  function ValidateMessageSanitizedFirst(message: Nullable<string>): (r: Sanitized<MessageError>)
    ensures r == Rejected(MessageEmpty) <==> message.Null? || IsBlank(message.value)
    ensures r.Accepted? ==> r.value == RemoveControls(Trim(message.value))
    ensures r.Accepted? ==> |r.value| <= MaxMessageLength
    ensures r.Accepted? ==> forall i :: 0 <= i < |r.value| ==> KeptBySanitizer(r.value[i])
    ensures r.Accepted? ==> !IsDangerous(r.value)
  {
    if message.Null? || IsBlank(message.value) then Rejected(MessageEmpty)
    else
      var trimmed := Trim(message.value);
      if |trimmed| > MaxMessageLength then Rejected(MessageTooLong)
      else
        var sanitized := RemoveControls(trimmed);
        if IsDangerous(sanitized) then Rejected(MessageNotAllowed)
        else Accepted(sanitized)
  }

  // ---------------------------------------------------------------------------
  // Name
  // ---------------------------------------------------------------------------

  /** Substrings that make a name look like a bot command. */
  const NameCommands: seq<string> := ["ticket", "crear", "estado", "cancelar", "consultar", "ver", "nuevo", "abrir"]

  predicate LooksLikeCommand(lower: string) {
    exists w | w in NameCommands :: Contains(lower, w)
  }

  function NameVerdict(trimmed: string): Verdict<NameError> {
    if |trimmed| < MinNameLength then Invalid(NameTooShort)
    else if |trimmed| > MaxNameLength then Invalid(NameTooLong)
    else if !MatchesNamePattern(trimmed) then Invalid(NameHasInvalidChars)
    else if DistinctCount(trimmed) < 2 then Invalid(NameTooRepetitive)
    else if LooksLikeCommand(Lower(trimmed)) then Invalid(NameLooksLikeCommand)
    else Valid
  }

  function ValidateName(name: string): (r: Verdict<NameError>)
    ensures r == Invalid(NameTooShort) <==> |Trim(name)| < MinNameLength
    ensures r == Invalid(NameTooLong) ==> |Trim(name)| > MaxNameLength
    ensures r == Invalid(NameHasInvalidChars) ==> MinNameLength <= |Trim(name)| <= MaxNameLength
    ensures r == Invalid(NameTooRepetitive) ==> MatchesNamePattern(Trim(name))
    ensures r == Invalid(NameLooksLikeCommand) ==> MatchesNamePattern(Trim(name)) && DistinctCount(Trim(name)) >= 2
  {
    NameVerdict(Trim(name))
  }

  /** Fewer than two distinct characters means every character equals the first. */
  lemma {:induction false} DistinctCountBelowTwo(s: string)
    requires s != []
    ensures DistinctCount(s) < 2 <==> forall i :: 0 <= i < |s| ==> s[i] == s[0]
  {
    var chars := set i | 0 <= i < |s| :: s[i];
    assert s[0] in chars;
    if forall i :: 0 <= i < |s| ==> s[i] == s[0] {
      assert chars == {s[0]};
    } else {
      var i :| 0 <= i < |s| && s[i] != s[0];
      var pair := {s[0], s[i]};
      assert chars == pair + (chars - pair);
      assert |pair| == 2;
    }
  }

  /**
   * A name is accepted exactly when its trim has 2 to 100 characters, all
   * letters, white space, `-`, `'` or `.`, at least two of them different, and
   * in lower case contains none of the command words.
   */
  lemma ValidateNameAcceptsIff(name: string)
    ensures ValidateName(name).Valid?
        <==> var t := Trim(name);
             MinNameLength <= |t| <= MaxNameLength
             && (forall i :: 0 <= i < |t| ==> IsNameChar(t[i]))
             && (exists i :: 0 <= i < |t| && t[i] != t[0])
             && (forall w | w in NameCommands :: !Contains(Lower(t), w))
  {
    var t := Trim(name);
    assert ValidateName(name) == NameVerdict(t);
    if MinNameLength <= |t| <= MaxNameLength && MatchesNamePattern(t) {
      DistinctCountBelowTwo(t);
    }
  }

  /** Validating an already trimmed name gives the same verdict. */
  lemma ValidateNameTrimmed(name: string)
    ensures ValidateName(Trim(name)) == ValidateName(name)
  {
    var t := Trim(name);
    TrimIdempotent(name);
    assert Trim(t) == t;
    assert ValidateName(t) == NameVerdict(Trim(t));
    assert ValidateName(name) == NameVerdict(t);
  }

  // ---------------------------------------------------------------------------
  // E-mail
  // ---------------------------------------------------------------------------

  /** Misspelt domains and their corrections, in the order they are tried. */
  const CommonTypos: seq<(string, string)> := [
    ("@gmial.com", "@gmail.com"),
    ("@gmai.com", "@gmail.com"),
    ("@gamil.com", "@gmail.com"),
    ("@hotmal.com", "@hotmail.com"),
    ("@outloo.com", "@outlook.com"),
    ("@yahooo.com", "@yahoo.com")
  ]

  /** Every misspelling in the table is a domain: it starts with `@`. */
  predicate TyposAreDomains(typos: seq<(string, string)>) {
    forall p | p in typos :: |p.0| > 0 && p.0[0] == '@'
  }

  lemma CommonTyposAreDomains()
    ensures TyposAreDomains(CommonTypos)
  {
  }

  /** The first entry of `typos` whose misspelling ends `t`. */
  function FirstTypo(t: string, typos: seq<(string, string)>): (r: Nullable<(string, string)>)
    ensures r.Some? ==> r.value in typos && EndsWith(t, r.value.0)
  {
    if typos == [] then Null
    else if EndsWith(t, typos[0].0) then Some(typos[0])
    else FirstTypo(t, typos[1..])
  }

  /** No entry is found exactly when no misspelling in the table ends `t`. */
  lemma {:induction false} FirstTypoNullIff(t: string, typos: seq<(string, string)>)
    ensures FirstTypo(t, typos).Null? <==> forall p | p in typos :: !EndsWith(t, p.0)
  {
    if typos != [] {
      FirstTypoNullIff(t, typos[1..]);
      assert forall p | p in typos :: p == typos[0] || p in typos[1..];
    }
  }

  /** The e-mail validator's decision; `ValidateEmail` computes it with a loop over the typo table. */
  function EmailVerdict(email: string): Verdict<EmailError> {
    NormalizedEmailVerdict(Lower(Trim(email)))
  }

  /** The decision on an address already trimmed and lower-cased. */
  function NormalizedEmailVerdict(trimmed: string): Verdict<EmailError> {
    if |trimmed| > MaxEmailLength then Invalid(EmailTooLong)
    else if !MatchesEmailPattern(trimmed) then Invalid(EmailBadFormat)
    else match FirstTypo(trimmed, CommonTypos)
      case Some(typo) => Invalid(EmailTypo(ReplaceAll(trimmed, typo.0, typo.1)))
      case Null => Valid
  }

  /** Scans the typo table in order; the loop finds the same entry as `FirstTypo`. */
  method FindTypo(t: string, typos: seq<(string, string)>) returns (r: Nullable<(string, string)>)
    ensures r == FirstTypo(t, typos)
  {
    var i := 0;
    while i < |typos|
      invariant 0 <= i <= |typos|
      invariant FirstTypo(t, typos[i..]) == FirstTypo(t, typos)
    {
      assert typos[i..][1..] == typos[i + 1..];
      if EndsWith(t, typos[i].0) {
        return Some(typos[i]);
      }
      i := i + 1;
    }
    return Null;
  }

  method ValidateEmail(email: string) returns (r: Verdict<EmailError>)
    ensures r == EmailVerdict(email)
  {
    var trimmed := Lower(Trim(email));
    assert EmailVerdict(email) == NormalizedEmailVerdict(trimmed);
    if |trimmed| > MaxEmailLength {
      return Invalid(EmailTooLong);
    }
    if !MatchesEmailPattern(trimmed) {
      return Invalid(EmailBadFormat);
    }
    var typo := FindTypo(trimmed, CommonTypos);
    if typo.Some? {
      CommonTyposAreDomains();
      return Invalid(EmailTypo(ReplaceAll(trimmed, typo.value.0, typo.value.1)));
    }
    return Valid;
  }

  /** In an address that matches the pattern, the `@` of the split is its only `@`. */
  lemma EmailSingleAt(s: string, at: int, dot: int)
    requires EmailSplit(s, at, dot)
    ensures forall i :: 0 <= i < |s| && s[i] == '@' ==> i == at
  {
  }

  /**
   * An address is accepted exactly when its trimmed, lower-cased form is at
   * most 254 characters, matches the pattern and ends in none of the typos.
   */
  lemma EmailAcceptedIff(email: string)
    ensures EmailVerdict(email).Valid?
        <==> var t := Lower(Trim(email));
             |t| <= MaxEmailLength && MatchesEmailPattern(t)
             && forall p | p in CommonTypos :: !EndsWith(t, p.0)
  {
    FirstTypoNullIff(Lower(Trim(email)), CommonTypos);
  }

  /**
   * In an address that matches the pattern, a misspelt domain that ends it
   * occurs nowhere else, so `Replace` swaps exactly that suffix.
   */
  lemma TypoReplacesSuffix(t: string, typos: seq<(string, string)>, p: (string, string))
    requires MatchesEmailPattern(t) && TyposAreDomains(typos) && p in typos && EndsWith(t, p.0)
    ensures ReplaceAll(t, p.0, p.1) == t[..|t| - |p.0|] + p.1
  {
    var at, dot :| 0 <= at < |t| && 0 <= dot < |t| && EmailSplit(t, at, dot);
    EmailSingleAt(t, at, dot);
    assert t[|t| - |p.0|] == p.0[0];
    ReplaceUniqueSuffix(t, p.0, p.1);
  }

  /**
   * A typo is reported with a suggestion that swaps the misspelt domain for the
   * correct one and keeps the local part.
   */
  lemma EmailTypoSuggestion(email: string)
    requires EmailVerdict(email).Invalid? && EmailVerdict(email).error.EmailTypo?
    ensures var t := Lower(Trim(email));
            exists p | p in CommonTypos ::
              EndsWith(t, p.0)
              && EmailVerdict(email).error.suggestion == t[..|t| - |p.0|] + p.1
  {
    var t := Lower(Trim(email));
    assert EmailVerdict(email) == NormalizedEmailVerdict(t);
    var p := FirstTypo(t, CommonTypos).value;
    CommonTyposAreDomains();
    TypoReplacesSuffix(t, CommonTypos, p);
  }

  /** Validating the stored form of an address (trimmed and lower-cased) gives the same verdict. */
  lemma EmailVerdictNormalized(email: string)
    ensures EmailVerdict(Lower(Trim(email))) == EmailVerdict(email)
  {
    var t := Trim(email);
    TrimIdempotent(email);
    TrimLower(t);
    LowerIdempotent(t);
  }

  // ---------------------------------------------------------------------------
  // Description
  // ---------------------------------------------------------------------------

  function ValidateDescription(description: string): (r: Verdict<DescriptionError>)
    ensures r == Invalid(DescriptionTooShort) <==> |Trim(description)| < MinDescriptionLength
    ensures r == Invalid(DescriptionTooFewLetters) ==> MinDescriptionLength <= |Trim(description)| <= MaxDescriptionLength
    ensures r == Invalid(DescriptionNotAllowed) ==> CountLetters(Trim(description)) >= 5
    ensures r.Valid? <==> MinDescriptionLength <= |Trim(description)| <= MaxDescriptionLength
                          && CountLetters(Trim(description)) >= 5 && !IsDangerous(Trim(description))
  {
    var trimmed := Trim(description);
    if |trimmed| < MinDescriptionLength then Invalid(DescriptionTooShort)
    else if |trimmed| > MaxDescriptionLength then Invalid(DescriptionTooLong)
    else if CountLetters(trimmed) < 5 then Invalid(DescriptionTooFewLetters)
    else if IsDangerous(trimmed) then Invalid(DescriptionNotAllowed)
    else Valid
  }

  /** Validating an already trimmed description gives the same verdict. */
  lemma ValidateDescriptionTrimmed(description: string)
    ensures ValidateDescription(Trim(description)) == ValidateDescription(description)
  {
    TrimIdempotent(description);
  }
}
