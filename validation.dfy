/**
 * The three shared validators: `validateEmail` (the pattern `\S+@\S+\.\S+`,
 * unanchored), `validatePassword` (required, then at least 8 characters) and
 * `validatePhone` (empty, or `^\+?[\d\s-]{10,}$`). String length is counted
 * in sequence elements.
 */
module Validation {
  import opened Wrappers
  import opened Text

  // ---------------------------------------------------------------------
  // Email

  /**
   * A match of `\S+@\S+\.\S+` whose '@' is at index `a` and whose '.' is at
   * index `b`: one non-blank before the '@', only non-blanks (at least one)
   * between the two, and one non-blank after the '.'.
   */
  predicate EmailAt(s: string, a: int, b: int) {
    && 0 < a && a + 1 < b && b + 1 < |s|
    && s[a] == '@' && s[b] == '.'
    && !IsWs(s[a - 1]) && NonWsRange(s, a + 1, b) && !IsWs(s[b + 1])
  }

  /** The pattern occurs somewhere in `s` (the regex test is unanchored). */
  ghost predicate EmailMatch(s: string) {
    exists a, b :: EmailAt(s, a, b)
  }

  /** `s` ends with `\S+@\S+`, the '@' being at index `a`. */
  predicate MidAt(s: string, a: int) {
    0 < a && a + 1 < |s| && s[a] == '@' && !IsWs(s[a - 1]) && NonWsRange(s, a + 1, |s|)
  }

  /** Some '@' makes `s` end with `\S+@\S+`. */
  ghost predicate EndsMid(s: string) {
    exists a :: MidAt(s, a)
  }

  /**
   * The state of a left-to-right scan for the pattern. Each flag says which
   * prefix of the pattern ends at the current position:
   * `prefix` = `\S+`, `at` = `\S+@`, `mid` = `\S+@\S+`, `dot` = `\S+@\S+\.`;
   * `hit` records that a whole match has been seen.
   */
  datatype Scan = Scan(prefix: bool, at: bool, mid: bool, dot: bool, hit: bool)

  const StartScan := Scan(false, false, false, false, false)

  /** Reads one more character. */
  function Step(st: Scan, c: char): Scan {
    if IsWs(c) then Scan(false, false, false, false, st.hit)
    else Scan(true, st.prefix && c == '@', st.at || st.mid, st.mid && c == '.', st.hit || st.dot)
  }

  /** The scan state after reading all of `s`. */
  function Run(s: string): Scan {
    if s == [] then StartScan else Step(Run(s[..|s| - 1]), s[|s| - 1])
  }

  /** What each flag of the scan state means for the text read so far. */
  ghost predicate ScanMeans(s: string, st: Scan) {
    && (st.prefix <==> |s| > 0 && !IsWs(s[|s| - 1]))
    && (st.at <==> |s| >= 2 && s[|s| - 1] == '@' && !IsWs(s[|s| - 2]))
    && (st.mid <==> EndsMid(s))
    && (st.dot <==> |s| >= 1 && s[|s| - 1] == '.' && EndsMid(s[..|s| - 1]))
    && (st.hit <==> EmailMatch(s))
  }

  lemma MidStep(s: string, c: char)
    ensures EndsMid(s + [c])
        <==> !IsWs(c) && (EndsMid(s) || (|s| >= 2 && s[|s| - 1] == '@' && !IsWs(s[|s| - 2])))
  {
    var t := s + [c];
    var n := |s|;
    if a :| MidAt(t, a) {
      assert t[n] == c;
      if a + 1 < n {
        forall k | a + 1 <= k < n ensures !IsWs(s[k]) {
          assert t[k] == s[k];
        }
        assert MidAt(s, a);
      } else {
        assert a == n - 1 && t[a] == s[a] && t[a - 1] == s[a - 1];
      }
    }
    if !IsWs(c) {
      if a :| MidAt(s, a) {
        assert MidAt(t, a);
      }
      if n >= 2 && s[n - 1] == '@' && !IsWs(s[n - 2]) {
        assert MidAt(t, n - 1);
      }
    }
  }

  lemma HitStep(s: string, c: char)
    ensures EmailMatch(s + [c])
        <==> EmailMatch(s) || (!IsWs(c) && |s| >= 1 && s[|s| - 1] == '.' && EndsMid(s[..|s| - 1]))
  {
    var t := s + [c];
    var n := |s|;
    if EmailMatch(t) {
      var a, b :| EmailAt(t, a, b);
      forall k | a + 1 <= k < b ensures !IsWs(s[k]) && !IsWs(s[..n - 1][k]) {
        assert t[k] == s[k];
      }
      if b + 1 < n {
        assert EmailAt(s, a, b);
      } else {
        assert b == n - 1 && t[n] == c;
        assert MidAt(s[..n - 1], a);
      }
    }
    if EmailMatch(s) {
      var a, b :| EmailAt(s, a, b);
      assert EmailAt(t, a, b);
    }
    if !IsWs(c) && n >= 1 && s[n - 1] == '.' && EndsMid(s[..n - 1]) {
      var a :| MidAt(s[..n - 1], a);
      assert EmailAt(t, a, n - 1);
    }
  }

  lemma StepMeans(s: string, c: char, st: Scan)
    requires ScanMeans(s, st)
    ensures ScanMeans(s + [c], Step(st, c))
  {
    MidStep(s, c);
    HitStep(s, c);
    var t := s + [c];
    assert t[..|t| - 1] == s;
    assert |t| >= 2 ==> t[|t| - 2] == s[|s| - 1];
  }

  lemma {:induction false} RunMeans(s: string)
    ensures ScanMeans(s, Run(s))
  {
    if s == [] {
      assert !EndsMid(s);
      assert !EmailMatch(s);
    } else {
      var init := s[..|s| - 1];
      RunMeans(init);
      StepMeans(init, s[|s| - 1], Run(init));
      assert init + [s[|s| - 1]] == s;
    }
  }

  /**
   * `validateEmail`: a single left-to-right scan, which accepts exactly the
   * strings in which the pattern occurs.
   */
  function ValidateEmail(s: string): (ok: bool)
    ensures ok <==> EmailMatch(s)
  {
    RunMeans(s);
    Run(s).hit
  }

  /** Text around a match never spoils it: the test is unanchored. */
  lemma EmailUnanchored(u: string, s: string, v: string)
    requires ValidateEmail(s)
    ensures ValidateEmail(u + s + v)
  {
    var a, b :| EmailAt(s, a, b);
    var t := u + s + v;
    forall k | a + 1 + |u| <= k < b + |u| ensures !IsWs(t[k]) {
      assert t[k] == s[k - |u|];
    }
    assert EmailAt(t, a + |u|, b + |u|);
  }

  /** A blank string (empty or all whitespace) is never a valid email. */
  lemma BlankIsNoEmail(s: string)
    requires Blank(s)
    ensures !ValidateEmail(s)
  {
  }

  // ---------------------------------------------------------------------
  // Password

  const MinPasswordLength := 8
  const PasswordRequired := "Password is required"
  const PasswordTooShort := "Password must be at least 8 characters"

  datatype PasswordCheck = PasswordCheck(isValid: bool, error: Option<string>)

  /**
   * `validatePassword`: valid exactly when at least 8 long; an error is
   * present exactly when invalid, the empty password getting its own message.
   */
  function ValidatePassword(p: string): (r: PasswordCheck)
    ensures r.isValid <==> |p| >= MinPasswordLength
    ensures r.error.None? <==> r.isValid
    ensures p == [] ==> r.error == Some(PasswordRequired)
    ensures 0 < |p| < MinPasswordLength ==> r.error == Some(PasswordTooShort)
  {
    if p == [] then PasswordCheck(false, Some(PasswordRequired))
    else if |p| < MinPasswordLength then PasswordCheck(false, Some(PasswordTooShort))
    else PasswordCheck(true, None)
  }

  // ---------------------------------------------------------------------
  // Phone

  /** The class `[\d\s-]`. */
  predicate PhoneChar(c: char) {
    IsDigit(c) || IsWs(c) || c == '-'
  }

  /** `[\d\s-]{10,}` matching the whole of `t`. */
  predicate PhoneBody(t: string) {
    |t| >= 10 && forall i :: 0 <= i < |t| ==> PhoneChar(t[i])
  }

  /**
   * `validatePhone`: the empty string passes; otherwise the whole string is
   * an optional '+' followed by at least ten digits, blanks or hyphens.
   */
  function ValidatePhone(s: string): (ok: bool)
    ensures s == [] ==> ok
    ensures s != [] ==> (ok <==> PhoneBody(s) || (s[0] == '+' && PhoneBody(s[1..])))
  {
    if s == [] then true
    else if s[0] == '+' then PhoneBody(s[1..])
    else PhoneBody(s)
  }

  /** A letter anywhere makes a phone number invalid. */
  lemma PhoneRejectsLetters(s: string, i: int)
    requires 0 <= i < |s| && IsLetter(s[i])
    ensures !ValidatePhone(s)
  {
    if s[0] == '+' {
      assert i > 0 && s[1..][i - 1] == s[i];
    }
  }
}
