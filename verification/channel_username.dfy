/** The channel-handle value object (`ChannelUsername`). A handle is `@`
    followed by 2 to 31 characters from `[A-Za-z0-9_]`. */
module ChannelUsername {
  import opened Results
  import opened Text

  predicate IsHandleChar(c: char) {
    ('a' <= c <= 'z') || ('A' <= c <= 'Z') || ('0' <= c <= '9') || c == '_'
  }

  /** `[a-zA-Z0-9_]*` over a whole string, checked one character at a time. */
  function AllHandleChars(s: string): (b: bool)
    ensures b <==> forall i :: 0 <= i < |s| ==> IsHandleChar(s[i])
  {
    if |s| == 0 then true
    else IsHandleChar(s[0]) && AllHandleChars(s[1..])
  }

  /** The regular expression `/^@[a-zA-Z0-9_]{2,31}$/`. */
  function MatchesHandlePattern(u: string): bool {
    |u| >= 1 && u[0] == '@' && 2 <= |u| - 1 <= 31 && AllHandleChars(u[1..])
  }

  /** The reasons a handle is refused, in the order they are checked. */
  datatype HandleError = Required | MissingAt | TooShort | TooLong | InvalidCharacters

  /** The first failing check, or `None` when the handle is accepted. */
  function CheckHandle(u: string): Option<HandleError> {
    if |u| == 0 then Some(Required)
    else if !StartsWith(u, "@") then Some(MissingAt)
    else if |u| < 3 then Some(TooShort)
    else if |u| > 32 then Some(TooLong)
    else if !MatchesHandlePattern(u) then Some(InvalidCharacters)
    else None
  }

  /** `ChannelUsername.isValid`: empty, missing `@` and out-of-range length
      are refused before the pattern is tried. */
  function IsValid(u: string): (b: bool)
    ensures b <==>
      (3 <= |u| <= 32 && u[0] == '@' && forall i :: 1 <= i < |u| ==> IsHandleChar(u[i]))
  {
    if |u| == 0 then false
    else if !StartsWith(u, "@") then false
    else if |u| < 3 || |u| > 32 then false
    else
      assert forall i :: 1 <= i < |u| ==> u[i] == u[1..][i - 1];
      MatchesHandlePattern(u)
  }

  /** The checker that reports a reason and the boolean check always agree. */
  lemma CheckHandleAgreesWithIsValid(u: string)
    ensures CheckHandle(u).None? <==> IsValid(u)
  {
  }

  /** The reasons are reported in precedence order: an input that fails an
      earlier check never reports a later one. */
  lemma CheckHandlePrecedence(u: string)
    ensures |u| == 0 <==> CheckHandle(u) == Some(Required)
    ensures CheckHandle(u) == Some(MissingAt) <==> |u| > 0 && u[0] != '@'
    ensures CheckHandle(u) == Some(TooShort) <==> |u| > 0 && u[0] == '@' && |u| < 3
    ensures CheckHandle(u) == Some(TooLong) <==> |u| > 32 && u[0] == '@'
    ensures CheckHandle(u) == Some(InvalidCharacters) <==>
      3 <= |u| <= 32 && u[0] == '@' && exists i :: 1 <= i < |u| && !IsHandleChar(u[i])
  {
  }

  /** Concrete verdicts at the short end: `@ab` is valid, because the
      pattern `/^@[a-zA-Z0-9_]{2,31}$/` allows 2 to 31 characters after
      the `@`. */
  lemma ShortestHandleAccepted()
    ensures IsValid("@ab") && IsValid("@abc")
  {
  }

  lemma RefusedHandleExamples()
    ensures CheckHandle("@a") == Some(TooShort)
    ensures CheckHandle("abc") == Some(MissingAt)
    ensures CheckHandle("") == Some(Required)
  {
  }

  lemma BadCharacterRefused()
    ensures CheckHandle("@ab$c") == Some(InvalidCharacters)
  {
    assert !IsHandleChar("@ab$c"[3]);
    assert !IsValid("@ab$c");
  }

  /** The `{ isValid, error? }` record that the validators return. */
  datatype Validation = Validation(isValid: bool, error: Option<string>)

  function UsernameMessage(e: HandleError): string {
    match e
    case Required => "Username is required"
    case MissingAt => "Username must start with @"
    case TooShort => "Username too short"
    case TooLong => "Username too long"
    case InvalidCharacters => "Username contains invalid characters"
  }

  /** `ChannelUsername.validate`: the first failing check's message. */
  function Validate(u: string): (r: Validation)
    ensures r.isValid == IsValid(u)
    ensures r.isValid <==> r.error.None?
    ensures !r.isValid ==> r.error == Some(UsernameMessage(CheckHandle(u).value))
  {
    match CheckHandle(u)
    case None => Validation(true, None)
    case Some(e) => Validation(false, Some(UsernameMessage(e)))
  }

  /** An instance of the value object always holds an accepted handle. */
  datatype Handle = Handle(username: string)
  type ValidHandle = h: Handle | IsValid(h.username) witness Handle("@ab")

  /** The constructor: throws on a refused handle, otherwise stores the input. */
  function Create(u: string): (r: Result<ValidHandle>)
    ensures r.Ok? <==> IsValid(u)
    ensures r.Ok? ==> r.value.username == u
    ensures r.Err? ==> r.message == "Invalid channel username format"
  {
    if IsValid(u) then Ok(Handle(u)) else Err("Invalid channel username format")
  }

  /** `getValue` and `getFullName` both hand back the stored handle. */
  function GetValue(h: ValidHandle): (r: string)
    ensures Create(r) == Ok(h)
  {
    h.username
  }

  function GetFullName(h: ValidHandle): (r: string)
    ensures r == GetValue(h)
  {
    h.username
  }

  /** `getDisplayName`: the handle without its leading `@`. */
  function GetDisplayName(h: ValidHandle): (d: string)
    ensures "@" + d == h.username
    ensures 2 <= |d| <= 31
    ensures forall i :: 0 <= i < |d| ==> IsHandleChar(d[i])
  {
    h.username[1..]
  }

  /** `equals`: comparison after lower-casing both handles. */
  predicate Equals(a: ValidHandle, b: ValidHandle)
    ensures a.username == b.username ==> Equals(a, b)
    ensures Equals(a, b) ==> |a.username| == |b.username|
    ensures Equals(a, b) <==> (|a.username| == |b.username|
      && forall i :: 0 <= i < |a.username| ==> LowerChar(a.username[i]) == LowerChar(b.username[i]))
  {
    Lower(a.username) == Lower(b.username)
  }

  /** `equals` is an equivalence relation that ignores letter case. */
  lemma EqualsIsEquivalence(a: ValidHandle, b: ValidHandle, c: ValidHandle)
    ensures Equals(a, a)
    ensures Equals(a, b) == Equals(b, a)
    ensures Equals(a, b) && Equals(b, c) ==> Equals(a, c)
    ensures a == b ==> Equals(a, b)
  {
  }

  /** Two handles that differ only in letter case are equal. */
  lemma EqualsIgnoresCase()
    ensures Create("@Test_1").Ok? && Create("@test_1").Ok?
    ensures Equals(Create("@Test_1").value, Create("@test_1").value)
  {
  }

  /** `sanitize`: trim, then lower-case. */
  function Sanitize(u: string): (r: string)
    ensures r == Lower(Trim(u))
    ensures |r| <= |u|
    ensures IsTrimmed(r)
    ensures forall i :: 0 <= i < |r| ==> !('A' <= r[i] <= 'Z')
  {
    var t := Trim(u);
    LowerLeavesNoUpper(t);
    LowerKeepsTrimmed(t);
    Lower(t)
  }

  /** A trimmed string is its own trim. */
  lemma TrimOfTrimmed(s: string)
    requires IsTrimmed(s)
    ensures Trim(s) == s
  {
  }

  /** Sanitizing is idempotent. */
  lemma SanitizeIdempotent(u: string)
    ensures Sanitize(Sanitize(u)) == Sanitize(u)
  {
    var r := Sanitize(u);
    TrimOfTrimmed(r);
    LowerIdempotent(Trim(u));
  }
}
