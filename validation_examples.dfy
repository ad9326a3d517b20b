// Concrete inputs on which the validators' behaviour is worked out in full.

module ValidationExamples {
  import opened Common
  import opened Text
  import opened Validation

  /** `<scr\x01ipt>` matches none of the dangerous alternatives. */
  lemma SplitScriptTagIsNotDangerous()
    ensures !IsDangerous("<scr\U{1}ipt>")
  {
    var raw := "<scr\U{1}ipt>";
    LowerOfLower(raw);
    Mismatch(raw, "<script", 0, 4);
    NoDangerWithoutMarkers(raw);
  }

  lemma ScriptTagIsDangerous()
    ensures IsDangerous("<script>")
  {
    var clean := "<script>";
    LowerOfLower(clean);
    assert clean[..7] == "<script";
    assert DangerousAt(Lower(clean), 0);
  }

  /**
   * Removing a control character can join the halves of a dangerous word:
   * `<scr\x01ipt>` passes the test and comes out as `<script>`.
   */
  lemma SanitizedMessageCanBeDangerous()
    ensures ValidateMessage(Some("<scr\U{1}ipt>")) == Accepted("<script>")
    ensures IsDangerous("<script>")
  {
    var raw := "<scr\U{1}ipt>";
    SplitScriptTagPasses(raw);
    MessageAccepted(raw);
    SplitScriptTagSanitized();
    ScriptTagIsDangerous();
  }

  lemma SplitScriptTagPasses(raw: string)
    requires raw == "<scr\U{1}ipt>"
    ensures Trim(raw) == raw && !IsDangerous(raw)
  {
    assert !IsWhiteSpace(raw[0]) && !IsWhiteSpace(raw[|raw| - 1]);
    TrimOfTrimmed(raw);
    SplitScriptTagIsNotDangerous();
  }

  lemma SplitScriptTagSanitized()
    ensures RemoveControls("<scr\U{1}ipt>") == "<script>"
  {
    var a, b := "<scr", "ipt>";
    RemoveOneControl(a, '\U{1}', b);
    assert a + ['\U{1}'] + b == "<scr\U{1}ipt>";
    assert a + b == "<script>";
  }

  /** "Oliver" is refused: in lower case it contains the command word "ver". */
  lemma OliverLooksLikeCommand()
    ensures ValidateName("Oliver") == Invalid(NameLooksLikeCommand)
  {
    var n := "Oliver";
    TrimOfTrimmed(n);
    assert MatchesNamePattern(n);
    assert n[1] != n[0];
    DistinctCountBelowTwo(n);
    assert Lower(n)[3..6] == "ver";
    ContainsAt(Lower(n), "ver", 3);
    assert "ver" in NameCommands;
  }
}
