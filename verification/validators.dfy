/**
 * The form-field validators. Each source validator is a regular expression
 * or a `trim`/`length` test; here each is a predicate over the characters of
 * the string, and the regular expression it replaces is stated separately
 * and proved equivalent.
 */
module Validators {

  /**
   * The characters matched by `\s` and removed by `trim`: the ECMAScript
   * WhiteSpace and LineTerminator code points.
   */
  predicate IsWhitespace(c: char) {
    var n := c as int;
    n == 0x09 || n == 0x0A || n == 0x0B || n == 0x0C || n == 0x0D || n == 0x20
    || n == 0xA0 || n == 0x1680 || (0x2000 <= n <= 0x200A)
    || n == 0x2028 || n == 0x2029 || n == 0x202F || n == 0x205F
    || n == 0x3000 || n == 0xFEFF
  }

  /** Some character of `s` is not whitespace. */
  predicate HasNonBlank(s: string) {
    exists i :: 0 <= i < |s| && !IsWhitespace(s[i])
  }

  /** `trim`'s removal of leading whitespace. */
  function TrimStart(s: string): (r: string)
    ensures |r| <= |s|
  {
    if |s| > 0 && IsWhitespace(s[0]) then TrimStart(s[1..]) else s
  }

  /** `trim`'s removal of trailing whitespace. */
  function TrimEnd(s: string): (r: string)
    ensures |r| <= |s|
  {
    if |s| > 0 && IsWhitespace(s[|s| - 1]) then TrimEnd(s[..|s| - 1]) else s
  }

  /** `String.prototype.trim`. */
  function Trim(s: string): string {
    TrimEnd(TrimStart(s))
  }

  /** validateRequired: `value.trim().length > 0`. */
  predicate ValidateRequired(s: string) {
    |Trim(s)| > 0
  }

  /** validateMinLength: `value.length >= minLength`. */
  predicate ValidateMinLength(s: string, minLength: int) {
    |s| >= minLength
  }

  predicate IsUpperOrDigit(c: char) {
    ('A' <= c <= 'Z') || ('0' <= c <= '9')
  }

  /** `^[A-Z0-9]{lo,hi}$` */
  predicate UpperDigitsBetween(s: string, lo: nat, hi: nat) {
    lo <= |s| <= hi && forall i :: 0 <= i < |s| ==> IsUpperOrDigit(s[i])
  }

  /** validateRegNo: `^[A-Z0-9]{6,12}$`. */
  predicate ValidateRegNo(s: string) {
    UpperDigitsBetween(s, 6, 12)
  }

  /** validateStaffId: `^[A-Z0-9]{4,10}$`. */
  predicate ValidateStaffId(s: string) {
    UpperDigitsBetween(s, 4, 10)
  }

  /** Every character belongs to the class `[^\s@]`. */
  predicate Plain(s: string) {
    forall i :: 0 <= i < |s| ==> s[i] != '@' && !IsWhitespace(s[i])
  }

  /** A '.' that is neither the first nor the last character. */
  predicate HasInnerDot(s: string) {
    exists k :: 0 < k < |s| - 1 && s[k] == '.'
  }

  /** The index of the first occurrence of `c` in `s`, or `|s|` when there is none. */
  function IndexOf(s: string, c: char): (i: nat)
    ensures i <= |s|
    ensures i < |s| ==> s[i] == c
    ensures forall j :: 0 <= j < i ==> s[j] != c
  {
    if |s| == 0 then 0
    else if s[0] == c then 0
    else 1 + IndexOf(s[1..], c)
  }

  /**
   * validateEmail, decided character by character: a non-empty local part
   * before the first '@', then a domain, neither containing '@' or
   * whitespace, the domain holding an inner '.'.
   */
  predicate ValidateEmail(s: string) {
    var i := IndexOf(s, '@');
    0 < i < |s| && Plain(s[..i]) && Plain(s[i + 1..]) && HasInnerDot(s[i + 1..])
  }

  /** One way `^[^\s@]+@[^\s@]+\.[^\s@]+$` can match `s`. */
  predicate IsEmailSplit(s: string, a: string, b: string, c: string) {
    s == a + "@" + b + "." + c
    && |a| > 0 && |b| > 0 && |c| > 0
    && Plain(a) && Plain(b) && Plain(c)
  }

  /** The language of the regular expression `^[^\s@]+@[^\s@]+\.[^\s@]+$`. */
  ghost predicate MatchesEmailPattern(s: string) {
    exists a, b, c :: IsEmailSplit(s, a, b, c)
  }

  function CountChar(s: string, c: char): nat {
    if |s| == 0 then 0 else (if s[0] == c then 1 else 0) + CountChar(s[1..], c)
  }

  // ---------------------------------------------------------------------
  // Properties
  // ---------------------------------------------------------------------

  /** TrimStart removes a run of whitespace from the front and stops at the first other character. */
  lemma {:induction false} TrimStartShape(s: string)
    ensures var r := TrimStart(s);
      r == s[|s| - |r|..]
      && (r == [] || !IsWhitespace(r[0]))
      && forall i :: 0 <= i < |s| - |r| ==> IsWhitespace(s[i])
  {
    if |s| > 0 && IsWhitespace(s[0]) {
      TrimStartShape(s[1..]);
      var r := TrimStart(s);
      assert r == TrimStart(s[1..]);
      forall i | 0 <= i < |s| - |r|
        ensures IsWhitespace(s[i])
      {
        if i > 0 {
          assert s[i] == s[1..][i - 1];
        }
      }
    }
  }

  /** TrimEnd removes a run of whitespace from the back and stops at the last other character. */
  lemma {:induction false} TrimEndShape(s: string)
    ensures var r := TrimEnd(s);
      r == s[..|r|]
      && (r == [] || !IsWhitespace(r[|r| - 1]))
      && forall i :: |r| <= i < |s| ==> IsWhitespace(s[i])
  {
    if |s| > 0 && IsWhitespace(s[|s| - 1]) {
      TrimEndShape(s[..|s| - 1]);
      var r := TrimEnd(s);
      assert r == TrimEnd(s[..|s| - 1]);
      forall i | |r| <= i < |s|
        ensures IsWhitespace(s[i])
      {
        if i < |s| - 1 {
          assert s[i] == s[..|s| - 1][i];
        }
      }
    }
  }

  /** validateRequired holds exactly when some character is not whitespace. */
  lemma ValidateRequiredIffNonBlank(s: string)
    ensures ValidateRequired(s) <==> HasNonBlank(s)
  {
    TrimStartShape(s);
    var t := TrimStart(s);
    TrimEndShape(t);
    if HasNonBlank(s) {
      var i :| 0 <= i < |s| && !IsWhitespace(s[i]);
      assert t != [];
      assert !IsWhitespace(t[0]);
      assert |TrimEnd(t)| > 0;
    }
    if ValidateRequired(s) {
      var u := TrimEnd(t);
      assert u[0] == t[0] == s[|s| - |t|];
    }
  }

  /** Raising the bound never turns a rejection into an acceptance. */
  lemma ValidateMinLengthMonotone(s: string, m: int, n: int)
    requires m <= n
    ensures ValidateMinLength(s, n) ==> ValidateMinLength(s, m)
  {
  }

  /** Any registration number or staff id that passes is also non-blank. */
  lemma UpperDigitsAreRequired(s: string)
    ensures ValidateRegNo(s) ==> ValidateRequired(s)
    ensures ValidateStaffId(s) ==> ValidateRequired(s)
  {
    if ValidateRegNo(s) || ValidateStaffId(s) {
      assert !IsWhitespace(s[0]);
      ValidateRequiredIffNonBlank(s);
    }
  }

  lemma PlainConcat(a: string, b: string)
    ensures Plain(a + b) <==> Plain(a) && Plain(b)
  {
    if Plain(a) && Plain(b) {
      forall i | 0 <= i < |a + b|
        ensures (a + b)[i] != '@' && !IsWhitespace((a + b)[i])
      {
        if i >= |a| { assert (a + b)[i] == b[i - |a|]; }
      }
    }
    if Plain(a + b) {
      forall i | 0 <= i < |b| ensures b[i] != '@' && !IsWhitespace(b[i]) {
        assert (a + b)[|a| + i] == b[i];
      }
      forall i | 0 <= i < |a| ensures a[i] != '@' && !IsWhitespace(a[i]) {
        assert (a + b)[i] == a[i];
      }
    }
  }

  /** A domain part matches `[^\s@]+\.[^\s@]+` exactly when it is plain with an inner dot. */
  lemma DomainSplit(d: string)
    ensures (Plain(d) && HasInnerDot(d)) <==>
            (exists b, c :: d == b + "." + c && |b| > 0 && |c| > 0 && Plain(b) && Plain(c))
  {
    if Plain(d) && HasInnerDot(d) {
      var k :| 0 < k < |d| - 1 && d[k] == '.';
      var b, c := d[..k], d[k + 1..];
      assert d == b + "." + c;
      PlainConcat(b, "." + c);
      PlainConcat(".", c);
    }
    if exists b, c :: d == b + "." + c && |b| > 0 && |c| > 0 && Plain(b) && Plain(c) {
      var b, c :| d == b + "." + c && |b| > 0 && |c| > 0 && Plain(b) && Plain(c);
      assert "."[0] != '@' && !IsWhitespace("."[0]);
      PlainConcat(".", c);
      PlainConcat(b, "." + c);
      assert d[|b|] == '.';
    }
  }

  /** A string that passes validateEmail matches the regular expression. */
  lemma ValidEmailMatches(s: string)
    requires ValidateEmail(s)
    ensures MatchesEmailPattern(s)
  {
    var i := IndexOf(s, '@');
    var a, d := s[..i], s[i + 1..];
    var k :| 0 < k < |d| - 1 && d[k] == '.';
    var b, c := d[..k], d[k + 1..];
    assert Plain(b) by {
      forall j | 0 <= j < |b| ensures b[j] != '@' && !IsWhitespace(b[j]) {
        assert b[j] == d[j];
      }
    }
    assert Plain(c) by {
      forall j | 0 <= j < |c| ensures c[j] != '@' && !IsWhitespace(c[j]) {
        assert c[j] == d[k + 1 + j];
      }
    }
    assert d == b + "." + c;
    assert s == a + "@" + d;
    assert IsEmailSplit(s, a, b, c);
  }

  /** In a match of the regular expression, the first '@' is the one after the local part. */
  lemma MatchSplitsAtFirstAt(s: string, a: string, b: string, c: string)
    requires IsEmailSplit(s, a, b, c)
    ensures IndexOf(s, '@') == |a|
    ensures s[..|a|] == a && s[|a| + 1..] == b + "." + c
  {
    assert s == a + ("@" + (b + "." + c));
    assert s[|a|] == '@';
    assert forall j :: 0 <= j < |a| ==> s[j] == a[j];
  }

  /** The character-level decision agrees with the regular expression on every string. */
  lemma ValidateEmailMatchesPattern(s: string)
    ensures ValidateEmail(s) <==> MatchesEmailPattern(s)
  {
    if ValidateEmail(s) {
      ValidEmailMatches(s);
    }
    if MatchesEmailPattern(s) {
      var a, b, c :| IsEmailSplit(s, a, b, c);
      MatchSplitsAtFirstAt(s, a, b, c);
      DomainSplit(b + "." + c);
    }
  }

  lemma {:induction false} CountCharConcat(a: string, b: string, c: char)
    ensures CountChar(a + b, c) == CountChar(a, c) + CountChar(b, c)
  {
    if |a| > 0 {
      assert (a + b)[1..] == a[1..] + b;
      CountCharConcat(a[1..], b, c);
    } else {
      assert a + b == b;
    }
  }

  lemma {:induction false} PlainHasNoAt(s: string)
    requires Plain(s)
    ensures CountChar(s, '@') == 0
  {
    if |s| > 0 {
      PlainHasNoAt(s[1..]);
    }
  }

  /** A valid email holds exactly one '@'. */
  lemma ValidEmailHasOneAt(s: string)
    requires ValidateEmail(s)
    ensures CountChar(s, '@') == 1
  {
    var i := IndexOf(s, '@');
    assert s == s[..i] + ([s[i]] + s[i + 1..]);
    CountCharConcat(s[..i], [s[i]] + s[i + 1..], '@');
    CountCharConcat([s[i]], s[i + 1..], '@');
    PlainHasNoAt(s[..i]);
    PlainHasNoAt(s[i + 1..]);
  }
}
