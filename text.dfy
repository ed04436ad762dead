/**
 * Character classes and string helpers shared by the validators:
 * the regular-expression class `\s`, the class `\d`, and `String.prototype.trim`.
 */
module Text {
  import opened Wrappers

  /**
   * JavaScript's `\s`: the WhiteSpace and LineTerminator code points of
   * ECMA-262 (section 12.2 "White Space" and section 12.3 "Line Terminators").
   * `String.prototype.trim` strips exactly the same set.
   */
  predicate IsWs(c: char) {
    || c == '\t' || c == '\n' || c == '\U{000B}' || c == '\U{000C}' || c == '\r'
    || c == ' ' || c == '\U{00A0}' || c == '\U{1680}'
    || ('\U{2000}' <= c <= '\U{200A}')
    || c == '\U{2028}' || c == '\U{2029}' || c == '\U{202F}' || c == '\U{205F}'
    || c == '\U{3000}' || c == '\U{FEFF}'
  }

  /** JavaScript's `\d`: ASCII digits only. */
  predicate IsDigit(c: char) {
    '0' <= c <= '9'
  }

  /** ASCII letters: never part of a phone number. */
  predicate IsLetter(c: char) {
    ('a' <= c <= 'z') || ('A' <= c <= 'Z')
  }

  /** Every character of `s[lo..hi]` is outside `\s`. */
  predicate NonWsRange(s: string, lo: int, hi: int)
    requires 0 <= lo <= hi <= |s|
  {
    forall k :: lo <= k < hi ==> !IsWs(s[k])
  }

  /** Every character of `s` is in `\s` (the empty string included). */
  predicate AllWs(s: string) {
    forall k :: 0 <= k < |s| ==> IsWs(s[k])
  }

  /** `s` with its leading whitespace removed. */
  function TrimStart(s: string): (r: string)
    ensures |r| <= |s| && r == s[|s| - |r|..]
    ensures AllWs(s[..|s| - |r|])
    ensures r == [] || !IsWs(r[0])
  {
    if s != [] && IsWs(s[0]) then TrimStart(s[1..]) else s
  }

  /** `s` with its trailing whitespace removed. */
  function TrimEnd(s: string): (r: string)
    ensures |r| <= |s| && r == s[..|r|]
    ensures AllWs(s[|r|..])
    ensures r == [] || !IsWs(r[|r| - 1])
  {
    if s != [] && IsWs(s[|s| - 1]) then TrimEnd(s[..|s| - 1]) else s
  }

  /** `String.prototype.trim`. */
  function Trim(s: string): (r: string)
    ensures r == [] || (!IsWs(r[0]) && !IsWs(r[|r| - 1]))
  {
    TrimEnd(TrimStart(s))
  }

  /** The trimmed string is empty exactly when every character is whitespace. */
  lemma TrimEmptyIffAllWs(s: string)
    ensures Trim(s) == [] <==> AllWs(s)
  {
    var t := TrimStart(s);
    var i := |s| - |t|;
    if TrimEnd(t) == [] {
      assert t[0..] == t;
      assert s == s[..i] + t;
    }
  }

  /** Trimming removes leading and trailing whitespace and nothing else. */
  lemma TrimIsSlice(s: string) returns (i: int, j: int)
    ensures 0 <= i <= j <= |s| && Trim(s) == s[i..j]
    ensures AllWs(s[..i]) && AllWs(s[j..])
  {
    var t := TrimStart(s);
    i := |s| - |t|;
    var r := TrimEnd(t);
    j := i + |r|;
    assert s[i..j] == t[..|r|];
    assert s[j..] == t[|r|..];
  }

  /**
   * A blank string: `!s.trim()`, i.e. the trimmed string is empty, which
   * `TrimEmptyIffAllWs` shows is the same as every character being `\s`.
   */
  predicate Blank(s: string) {
    AllWs(s)
  }

  /** `Blank` is exactly `!s.trim()`. */
  lemma BlankIsTrimEmpty(s: string)
    ensures Blank(s) <==> Trim(s) == []
  {
    TrimEmptyIffAllWs(s);
  }

  /** JavaScript truthiness of an optional string: present and non-empty. */
  predicate TruthyStr(v: Option<string>) {
    v.Some? && v.value != ""
  }

  /**
   * `v || d` on an optional string: the result is one of the two operands,
   * the given value is used exactly when it is truthy, and a non-empty
   * default makes the result non-empty.
   */
  function StrOr(v: Option<string>, d: string): (r: string)
    ensures r == d || v == Some(r)
    ensures TruthyStr(v) <==> v == Some(r) && r != ""
    ensures d != "" ==> r != ""
  {
    if TruthyStr(v) then v.value else d
  }

  /** Defaulting an already defaulted value again changes nothing. */
  lemma StrOrIdempotent(v: Option<string>, d: string)
    ensures StrOr(Some(StrOr(v, d)), d) == StrOr(v, d)
  {
  }

  /** `a || b || d` takes the first truthy operand. */
  lemma StrOrChain(a: Option<string>, b: Option<string>, d: string)
    ensures TruthyStr(a) ==> StrOr(a, StrOr(b, d)) == a.value
    ensures !TruthyStr(a) && TruthyStr(b) ==> StrOr(a, StrOr(b, d)) == b.value
    ensures !TruthyStr(a) && !TruthyStr(b) ==> StrOr(a, StrOr(b, d)) == d
  {
  }
}
