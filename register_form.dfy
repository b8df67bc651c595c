/** The registration form: its fields, the client-side checks and what a submit leads to. */
module RegisterForm {
  import opened Common
  import opened Strings

  /** A run of `[^\s@]+`: non-empty, with no whitespace and no `@`. */
  predicate Part(x: string)
  {
    x != [] && forall i :: 0 <= i < |x| ==> !IsWhitespace(x[i]) && x[i] != '@'
  }

  /** `s` read as `part @ part . part`, with the `@` at `k` and the `.` at `d`. */
  predicate RegexSplit(s: string, k: int, d: int)
  {
    && 0 < k < d < |s| - 1
    && s[k] == '@' && s[d] == '.'
    && Part(s[..k]) && Part(s[k + 1..d]) && Part(s[d + 1..])
  }

  /** The language of `/^[^\s@]+@[^\s@]+\.[^\s@]+$/`. */
  ghost predicate MatchesEmailPattern(s: string)
  {
    exists k, d :: RegexSplit(s, k, d)
  }

  /** A direct test for the same pattern: no whitespace, exactly one `@` with something
      before it, and a `.` after the character that follows the `@` and before the last
      character. */
  predicate IsValidEmail(s: string)
  {
    var k := IndexOf(s, '@');
    && (forall i :: 0 <= i < |s| ==> !IsWhitespace(s[i]))
    && 0 < k && k + 4 <= |s|
    && IndexOf(s[k + 1..], '@') == |s| - k - 1
    && '.' in s[k + 2..|s| - 1]
  }

  /** The direct test accepts exactly the strings the pattern matches. */
  lemma IsValidEmailMatchesPattern(s: string)
    ensures IsValidEmail(s) <==> MatchesEmailPattern(s)
  {
    if IsValidEmail(s) {
      ValidEmailSplits(s);
    }
    if MatchesEmailPattern(s) {
      var k, d :| RegexSplit(s, k, d);
      SplitIsValidEmail(s, k, d);
    }
  }

  /** A range of characters with no whitespace and no `@` is a run of `[^\s@]+`. */
  lemma RangeIsPart(s: string, lo: int, hi: int)
    requires 0 <= lo < hi <= |s|
    requires forall i :: lo <= i < hi ==> !IsWhitespace(s[i]) && s[i] != '@'
    ensures Part(s[lo..hi])
  {
    forall i | 0 <= i < hi - lo ensures !IsWhitespace(s[lo..hi][i]) && s[lo..hi][i] != '@' {
      assert s[lo..hi][i] == s[lo + i];
    }
  }

  /** The test's second `IndexOf` rules out any `@` after position `k`. */
  lemma NoAtAfter(s: string, k: int)
    requires 0 <= k < |s|
    requires IndexOf(s[k + 1..], '@') == |s| - k - 1
    ensures forall i :: k < i < |s| ==> s[i] != '@'
  {
    var rest := s[k + 1..];
    forall i | k < i < |s| ensures s[i] != '@' {
      assert s[i] == rest[i - k - 1];
    }
  }

  lemma ValidEmailSplits(s: string)
    requires IsValidEmail(s)
    ensures MatchesEmailPattern(s)
  {
    var k := IndexOf(s, '@');
    var mid := s[k + 2..|s| - 1];
    var j := IndexOf(mid, '.');
    assert j < |mid|;
    var d := k + 2 + j;
    assert s[d] == mid[j];
    NoAtAfter(s, k);
    RangeIsPart(s, 0, k);
    RangeIsPart(s, k + 1, d);
    RangeIsPart(s, d + 1, |s|);
    assert s[..k] == s[0..k];
    assert s[d + 1..] == s[d + 1..|s|];
    assert RegexSplit(s, k, d);
  }

  /** In a split address the only `@` is the separator, and no character is whitespace. */
  lemma SplitCharacters(s: string, k: int, d: int)
    requires RegexSplit(s, k, d)
    ensures forall i :: 0 <= i < |s| ==> !IsWhitespace(s[i]) && (s[i] == '@' ==> i == k)
  {
    forall i | 0 <= i < |s| ensures !IsWhitespace(s[i]) && (s[i] == '@' ==> i == k) {
      if i < k {
        assert s[i] == s[..k][i];
      } else if k < i < d {
        assert s[i] == s[k + 1..d][i - k - 1];
      } else if d < i {
        assert s[i] == s[d + 1..][i - d - 1];
      }
    }
  }

  lemma SplitIsValidEmail(s: string, k: int, d: int)
    requires RegexSplit(s, k, d)
    ensures IsValidEmail(s)
  {
    SplitCharacters(s, k, d);
    assert IndexOf(s, '@') == k;
    var rest := s[k + 1..];
    assert IndexOf(rest, '@') == |rest|;
    assert s[k + 2..|s| - 1][d - k - 2] == '.';
  }

  /** An address the pattern accepts is never blank, so the separate blank test in the
      form never decides anything on its own. */
  lemma ValidEmailIsNotBlank(s: string)
    ensures IsValidEmail(s) ==> Trim(s) != []
  {
    if IsValidEmail(s) {
      TrimShape(s);
      assert !IsWhitespace(s[0]);
    }
  }

  /** The password rule: not blank after trimming, and at least 6 characters. */
  predicate AcceptablePassword(p: string)
  {
    Trim(p) != [] && |p| >= 6
  }

  /** What the provider's `signUp` does: succeed, return an error, or throw. */
  datatype SignUpReply = SignUpOk | SignUpError(message: string) | SignUpThrew

  datatype Toast = ErrorToast(message: string) | SuccessToast(message: string)

  /** What a submit shows, whether it reached the provider and where it navigates. */
  datatype RegisterOutcome = RegisterOutcome(toast: Toast, signUpCalled: bool, navigateTo: Option<string>)

  /** `handleRegister`: the three checks in the source's order, then the provider call. */
  function Register(email: string, password: string, confirm: string, reply: SignUpReply): (o: RegisterOutcome)
    ensures o.signUpCalled <==> password == confirm && IsValidEmail(email) && AcceptablePassword(password)
    ensures password != confirm ==> o.toast == ErrorToast("Passwords do not match")
    ensures o.navigateTo.Some? <==> o.signUpCalled && reply == SignUpOk
    ensures o.navigateTo.Some? ==> o.navigateTo.value == "/login" && o.toast.SuccessToast?
    ensures o.toast.SuccessToast? ==> o.navigateTo.Some?
  {
    ValidEmailIsNotBlank(email);
    if password != confirm then RegisterOutcome(ErrorToast("Passwords do not match"), false, None)
    else if Trim(email) == [] || !IsValidEmail(email) then
      RegisterOutcome(ErrorToast("Please enter a valid email address"), false, None)
    else if !AcceptablePassword(password) then
      RegisterOutcome(ErrorToast("Password must be at least 6 characters long"), false, None)
    else
      match reply
      case SignUpOk =>
        RegisterOutcome(SuccessToast("Registration successful! Please check your email to verify your account."), true, Some("/login"))
      case SignUpError(message) => RegisterOutcome(ErrorToast(message), true, None)
      case SignUpThrew => RegisterOutcome(ErrorToast("Failed to register. Please try again."), true, None)
  }

  /** The form's fields. */
  class RegisterFormState {
    var email: string
    var password: string
    var confirmPassword: string

    constructor ()
      ensures email == "" && password == "" && confirmPassword == ""
    {
      email := "";
      password := "";
      confirmPassword := "";
    }

    /** The email field's change handler stores the trimmed input. */
    method SetEmail(input: string)
      modifies this
      ensures email == Trim(input)
      ensures password == old(password) && confirmPassword == old(confirmPassword)
    {
      email := Trim(input);
    }

    method SetPassword(input: string)
      modifies this
      ensures password == input
      ensures email == old(email) && confirmPassword == old(confirmPassword)
    {
      password := input;
    }

    method SetConfirmPassword(input: string)
      modifies this
      ensures confirmPassword == input
      ensures email == old(email) && password == old(password)
    {
      confirmPassword := input;
    }

    /** A submit reads the fields and leaves them as they are. */
    method HandleRegister(reply: SignUpReply) returns (o: RegisterOutcome)
      ensures o.signUpCalled <==> password == confirmPassword && IsValidEmail(email) && AcceptablePassword(password)
      ensures o.navigateTo == (if o.signUpCalled && reply == SignUpOk then Some("/login") else None)
      ensures o == Register(email, password, confirmPassword, reply)
    {
      o := Register(email, password, confirmPassword, reply);
    }
  }
}
