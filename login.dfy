// The login form's validation (frontend/src/pages/Login.jsx): the email
// and password checks, their messages, and when the form calls login.
// Strings are sequences of characters; the character classes are those of
// JavaScript regular expressions and String.prototype.trim.

module Login {
  import opened Shop

  /** JavaScript's `\s`, which is also the set `trim` strips. */
  predicate IsSpace(c: char) {
    var n := c as int;
    n == 0x09 || n == 0x0A || n == 0x0B || n == 0x0C || n == 0x0D || n == 0x20 ||
    n == 0xA0 || n == 0x1680 || (0x2000 <= n <= 0x200A) || n == 0x2028 || n == 0x2029 ||
    n == 0x202F || n == 0x205F || n == 0x3000 || n == 0xFEFF
  }

  /** The characters `.` does not match. */
  predicate IsLineTerminator(c: char) {
    var n := c as int;
    n == 0x0A || n == 0x0D || n == 0x2028 || n == 0x2029
  }

  /** `[^\s@]` */
  predicate Plain(c: char) {
    !IsSpace(c) && c != '@'
  }

  /** Leading white space removed. */
  function TrimStart(s: string): (r: string)
    ensures |r| <= |s| && r == s[|s| - |r|..]
    ensures forall k :: 0 <= k < |s| - |r| ==> IsSpace(s[k])
    ensures r == [] || !IsSpace(r[0])
  {
    if s != [] && IsSpace(s[0]) then TrimStart(s[1..]) else s
  }

  /** Trailing white space removed. */
  function TrimEnd(s: string): (r: string)
    ensures |r| <= |s| && r == s[..|r|]
    ensures forall k :: |r| <= k < |s| ==> IsSpace(s[k])
    ensures r == [] || !IsSpace(r[|r| - 1])
  {
    if s != [] && IsSpace(s[|s| - 1]) then TrimEnd(s[..|s| - 1]) else s
  }

  /** `s.trim()`: a stretch of `s` that neither starts nor ends with
      white space, with only white space cut off around it. */
  function Trim(s: string): (r: string)
    ensures exists i, j :: 0 <= i <= j <= |s| && r == s[i..j]
    ensures r == [] || (!IsSpace(r[0]) && !IsSpace(r[|r| - 1]))
  {
    var t := TrimStart(s);
    var r := TrimEnd(t);
    var i := |s| - |t|;
    assert t == s[i..] && r == t[..|r|];
    assert r == s[i..i + |r|];
    r
  }

  /** Nothing but white space. */
  ghost predicate Blank(s: string) {
    forall k :: 0 <= k < |s| ==> IsSpace(s[k])
  }

  /** `!s.trim()` holds exactly for blank strings. */
  lemma TrimEmptyExactly(s: string)
    ensures Trim(s) == [] <==> Blank(s)
  {
    var t := TrimStart(s);
    if t != [] {
      assert t[0] == s[|s| - |t|];
      assert IsSpace(t[0]) || TrimEnd(t) != [];
    }
  }

  /** `/^[^\s@]+@[^\s@]+\.[^\s@]+$/`: a non-empty local part, an `@`, and a
      domain with a `.` that is neither its first nor its last character;
      apart from that one `@` every character is plain. */
  ghost predicate EmailShape(s: string) {
    exists at, dot :: 0 < at && at + 1 < dot < |s| - 1 && s[at] == '@' && s[dot] == '.' &&
      forall k :: 0 <= k < |s| && k != at ==> Plain(s[k])
  }

  /** Index of the first `c` in `s`, or `|s|`. */
  function IndexOf(s: string, c: char): (i: nat)
    ensures i <= |s| && (i < |s| ==> s[i] == c)
    ensures forall k :: 0 <= k < i ==> s[k] != c
  {
    if s == [] then 0 else if s[0] == c then 0 else 1 + IndexOf(s[1..], c)
  }

  function AllPlain(t: string): bool {
    forall k :: 0 <= k < |t| ==> Plain(t[k])
  }

  function HasInnerDot(d: string): bool {
    exists j :: 1 <= j < |d| - 1 && d[j] == '.'
  }

  /** The match, split at the first `@`. */
  function SplitAtFirstAt(s: string): bool {
    var at := IndexOf(s, '@');
    0 < at < |s| && AllPlain(s[..at]) && AllPlain(s[at + 1..]) && HasInnerDot(s[at + 1..])
  }

  /** `emailRegex.test(s)`: it accepts exactly the well-formed addresses. */
  function MatchesEmail(s: string): (r: bool)
    ensures r <==> EmailShape(s)
  {
    EmailMatchExactly(s);
    SplitAtFirstAt(s)
  }

  /** The split at the first `@` decides the pattern exactly. */
  lemma EmailMatchExactly(s: string)
    ensures SplitAtFirstAt(s) <==> EmailShape(s)
  {
    var at := IndexOf(s, '@');
    if EmailShape(s) {
      var a, dot :| 0 < a && a + 1 < dot < |s| - 1 && s[a] == '@' && s[dot] == '.' &&
        forall k :: 0 <= k < |s| && k != a ==> Plain(s[k]);
      assert at == a by {
        assert at <= a;
        assert s[at] == '@' && !Plain(s[at]);
      }
      var d := s[at + 1..];
      assert d[dot - at - 1] == '.';
      assert AllPlain(s[..at]) && AllPlain(d);
    }
    if SplitAtFirstAt(s) {
      var d := s[at + 1..];
      var j :| 1 <= j < |d| - 1 && d[j] == '.';
      assert s[at + 1 + j] == '.';
      forall k | 0 <= k < |s| && k != at ensures Plain(s[k]) {
        if k < at {
          assert s[k] == s[..at][k];
        } else {
          assert s[k] == d[k - at - 1];
        }
      }
    }
  }

  /** A well-formed address has nothing to trim. */
  lemma EmailShapeIsTrimmed(s: string)
    requires EmailShape(s)
    ensures Trim(s) == s
  {
    var at, dot :| 0 < at && at + 1 < dot < |s| - 1 && s[at] == '@' && s[dot] == '.' &&
      forall k :: 0 <= k < |s| && k != at ==> Plain(s[k]);
    assert Plain(s[0]) && Plain(s[|s| - 1]);
    var t := TrimStart(s);
    assert t == s by {
      assert IsSpace(s[0]) || |t| == |s|;
    }
    assert IsSpace(t[|t| - 1]) || |TrimEnd(t)| == |t|;
  }

  const EmailRequired := "Email is required"
  const EmailInvalid := "Please enter a valid email address"
  const PasswordRequired := "Password is required"
  const PasswordTooShort := "Password must be at least 8 characters long"
  const PasswordTooWeak := "Password must include uppercase, lowercase, number and special character"

  /** `validateEmail`: "" for a well-formed address, otherwise the first
      failing check's message. */
  function ValidateEmail(email: string): (msg: string)
    ensures msg == "" <==> EmailShape(email)
    ensures msg == EmailRequired <==> Blank(email)
    ensures msg == EmailInvalid <==> !Blank(email) && !EmailShape(email)
  {
    TrimEmptyExactly(email);
    if Trim(email) == [] then EmailRequired
    else if !MatchesEmail(email) then EmailInvalid
    else ""
  }

  predicate IsLower(c: char) { 'a' <= c <= 'z' }
  predicate IsUpper(c: char) { 'A' <= c <= 'Z' }
  predicate IsDigit(c: char) { '0' <= c <= '9' }
  predicate IsSpecial(c: char) { c in "!@#$%^&" }

  /** What the complexity pattern demands: at least 8 characters, none a
      line terminator, with a lower-case letter, an upper-case letter, a
      digit and one of `!@#$%^&`. */
  ghost predicate Strong(p: string) {
    && |p| >= 8
    && (forall k :: 0 <= k < |p| ==> !IsLineTerminator(p[k]))
    && (exists k :: 0 <= k < |p| && IsLower(p[k]))
    && (exists k :: 0 <= k < |p| && IsUpper(p[k]))
    && (exists k :: 0 <= k < |p| && IsDigit(p[k]))
    && (exists k :: 0 <= k < |p| && IsSpecial(p[k]))
  }

  /** A lookahead `(?=.*[class])` at the start: a character of the class
      reached without crossing a line terminator. */
  function Lookahead(p: string, cls: char -> bool): bool {
    exists k :: 0 <= k < |p| && cls(p[k]) && forall m :: 0 <= m < k ==> !IsLineTerminator(p[m])
  }

  /** `/^(?=.*[a-z])(?=.*[A-Z])(?=.*\d)(?=.*[!@#$%^&]).{8,}$/` as four
      lookaheads and the main pattern. */
  function LookaheadsMatch(p: string): bool {
    && Lookahead(p, IsLower) && Lookahead(p, IsUpper) && Lookahead(p, IsDigit) && Lookahead(p, IsSpecial)
    && |p| >= 8 && forall k :: 0 <= k < |p| ==> !IsLineTerminator(p[k])
  }

  /** `complexityRegex.test(p)`: it accepts exactly the strong passwords. */
  function MatchesComplexity(p: string): (r: bool)
    ensures r <==> Strong(p)
  {
    ComplexityExactly(p);
    LookaheadsMatch(p)
  }

  /** The lookaheads pass exactly when each class occurs somewhere. */
  lemma ComplexityExactly(p: string)
    ensures LookaheadsMatch(p) <==> Strong(p)
  {
    if Strong(p) {
      var a :| 0 <= a < |p| && IsLower(p[a]);
      var b :| 0 <= b < |p| && IsUpper(p[b]);
      var c :| 0 <= c < |p| && IsDigit(p[c]);
      var d :| 0 <= d < |p| && IsSpecial(p[d]);
      assert IsLower(p[a]) && IsUpper(p[b]) && IsDigit(p[c]) && IsSpecial(p[d]);
    }
  }

  /** `validatePassword`: "" for a strong password, otherwise the first
      failing check's message. */
  function ValidatePassword(password: string): (msg: string)
    ensures msg == "" <==> Strong(password)
    ensures msg == PasswordRequired <==> password == []
    ensures msg == PasswordTooShort <==> 0 < |password| < 8
    ensures msg == PasswordTooWeak <==> |password| >= 8 && !Strong(password)
  {
    if password == [] then PasswordRequired
    else if |password| < 8 then PasswordTooShort
    else if !MatchesComplexity(password) then PasswordTooWeak
    else ""
  }

  datatype Credentials = Credentials(email: string, password: string)

  /** The messages shown under the two fields, and the login call if any. */
  datatype Submission = Submission(emailError: string, passwordError: string, login: Option<Credentials>)

  /** `handleSubmit`: validate both fields and call login, with the email
      trimmed, only when neither has an error. */
  function Submit(form: Credentials): (s: Submission)
    ensures s.emailError == ValidateEmail(form.email) && s.passwordError == ValidatePassword(form.password)
    ensures s.login.Some? <==> EmailShape(form.email) && Strong(form.password)
    ensures s.login.Some? ==> s.login.value == form
  {
    var emailError := ValidateEmail(form.email);
    var passwordError := ValidatePassword(form.password);
    if emailError == "" && passwordError == "" then
      EmailShapeIsTrimmed(form.email);
      Submission(emailError, passwordError, Some(Credentials(Trim(form.email), form.password)))
    else
      Submission(emailError, passwordError, None)
  }

  /** A blank address is reported as missing. */
  lemma BlankEmailExample()
    ensures ValidateEmail("   ") == EmailRequired
  {
    assert Blank("   ");
  }

  /** `a@b.c` is well formed. */
  lemma GoodEmailExample()
    ensures ValidateEmail("a@b.c") == ""
  {
    var e := "a@b.c";
    assert e[1] == '@' && e[3] == '.';
    assert forall k :: 0 <= k < |e| && k != 1 ==> Plain(e[k]);
  }

  /** A domain without a dot is rejected. */
  lemma DotlessEmailExample()
    ensures ValidateEmail("a@bc") == EmailInvalid
  {
    var e := "a@bc";
    assert !IsSpace(e[0]);
  }

  /** Concrete passwords: too short, strong, no upper-case letter. */
  lemma PasswordExamples()
    ensures ValidatePassword("Abc1!") == PasswordTooShort
    ensures ValidatePassword("Abcdefg1!") == ""
    ensures ValidatePassword("abcdefg1!") == PasswordTooWeak
  {
    var strong := "Abcdefg1!";
    assert IsUpper(strong[0]) && IsLower(strong[1]) && IsDigit(strong[7]) && IsSpecial(strong[8]);
    var weak := "abcdefg1!";
    assert forall k :: 0 <= k < |weak| ==> !IsUpper(weak[k]);
  }
}
