/**
 * The JavaScript string operations the listing search and the property form
 * rely on: `trim`, `toLowerCase`, `includes`, decimal rendering of a number
 * and the leading-integer parse of `parseInt` / `parseFloat`.
 */
module Text {
  import opened Results

  /** The characters `String.prototype.trim` removes: white space and line terminators. */
  predicate IsWhitespace(c: char) {
    c == ' ' || c == '\t' || c == '\n' || c == '\r' || c == '\U{B}' || c == '\U{C}'
    || c == '\U{A0}' || c == '\U{1680}' || ('\U{2000}' <= c <= '\U{200A}')
    || c == '\U{2028}' || c == '\U{2029}' || c == '\U{202F}' || c == '\U{205F}'
    || c == '\U{3000}' || c == '\U{FEFF}'
  }

  /** `s` with its leading white space removed: the longest suffix that does not start with white space. */
  function TrimStart(s: string): (r: string)
    ensures |r| <= |s| && r == s[|s| - |r|..]
    ensures forall k :: 0 <= k < |s| - |r| ==> IsWhitespace(s[k])
    ensures r == [] || !IsWhitespace(r[0])
  {
    if s != [] && IsWhitespace(s[0]) then TrimStart(s[1..]) else s
  }

  /** `s` with its trailing white space removed: the longest prefix that does not end with white space. */
  function TrimEnd(s: string): (r: string)
    ensures |r| <= |s| && r == s[..|r|]
    ensures forall k :: |r| <= k < |s| ==> IsWhitespace(s[k])
    ensures r == [] || !IsWhitespace(r[|r| - 1])
  {
    if s != [] && IsWhitespace(s[|s| - 1]) then TrimEnd(s[..|s| - 1]) else s
  }

  /** `r` is `s[i..i + |r|]` and everything of `s` outside that slice is white space. */
  ghost predicate IsTrimmedSlice(s: string, r: string, i: int) {
    0 <= i <= |s| - |r| && r == s[i..i + |r|]
    && (forall k :: 0 <= k < i ==> IsWhitespace(s[k]))
    && (forall k :: i + |r| <= k < |s| ==> IsWhitespace(s[k]))
  }

  /** `s.trim()`: a contiguous slice of `s`, everything outside it white space, no white space at either end. */
  function Trim(s: string): (r: string)
    ensures exists i :: IsTrimmedSlice(s, r, i)
    ensures r == [] || (!IsWhitespace(r[0]) && !IsWhitespace(r[|r| - 1]))
  {
    var t := TrimStart(s);
    var r := TrimEnd(t);
    PrefixOfSuffix(s, t, r);
    r
  }

  /** A prefix `r` of a suffix `t` of `s`, each cut only white space, is a trimmed slice of `s`. */
  lemma PrefixOfSuffix(s: string, t: string, r: string)
    requires |t| <= |s| && t == s[|s| - |t|..] && forall k :: 0 <= k < |s| - |t| ==> IsWhitespace(s[k])
    requires |r| <= |t| && r == t[..|r|] && forall k :: |r| <= k < |t| ==> IsWhitespace(t[k])
    requires t == [] || !IsWhitespace(t[0])
    requires r == [] || !IsWhitespace(r[|r| - 1])
    ensures IsTrimmedSlice(s, r, |s| - |t|)
    ensures r == [] || (!IsWhitespace(r[0]) && !IsWhitespace(r[|r| - 1]))
  {
    var i := |s| - |t|;
    assert r == s[i..i + |r|];
    forall k | i + |r| <= k < |s| ensures IsWhitespace(s[k]) {
      assert s[k] == t[k - i];
    }
    if r != [] {
      assert r[0] == t[0];
    }
  }

  /** Lower-cases one character; only the ASCII letters are mapped. */
  function LowerChar(c: char): char {
    if 'A' <= c <= 'Z' then (c as int + 32) as char else c
  }

  /** `s.toLowerCase()`, on the ASCII letters. */
  function ToLower(s: string): (r: string)
    ensures |r| == |s|
    ensures forall i :: 0 <= i < |s| ==> r[i] == LowerChar(s[i])
  {
    if s == [] then [] else [LowerChar(s[0])] + ToLower(s[1..])
  }

  /** Lower-casing twice is lower-casing once, and a lower-cased string has no upper-case letter. */
  lemma ToLowerIdempotent(s: string)
    ensures ToLower(ToLower(s)) == ToLower(s)
    ensures forall i :: 0 <= i < |s| ==> !('A' <= ToLower(s)[i] <= 'Z')
  {
    var l := ToLower(s);
    forall i | 0 <= i < |l| ensures !('A' <= l[i] <= 'Z') {
      LowerCharNotUpper(s[i]);
    }
    ToLowerKeepsLower(l);
  }

  lemma LowerCharNotUpper(c: char)
    ensures !('A' <= LowerChar(c) <= 'Z')
  {
  }

  /** A string with no upper-case ASCII letter is its own lower-case form. */
  lemma ToLowerKeepsLower(s: string)
    requires forall i :: 0 <= i < |s| ==> !('A' <= s[i] <= 'Z')
    ensures ToLower(s) == s
  {
    assert forall i :: 0 <= i < |s| ==> ToLower(s)[i] == s[i];
  }

  /** `needle` occurs in `hay` starting at position `i`. */
  ghost predicate OccursAt(hay: string, needle: string, i: int) {
    0 <= i && i + |needle| <= |hay| && hay[i..i + |needle|] == needle
  }

  /** `hay.includes(needle)`: `needle` is a prefix of `hay` or of one of its suffixes. */
  predicate Contains(hay: string, needle: string) {
    needle <= hay || (hay != [] && Contains(hay[1..], needle))
  }

  /** `Contains` holds exactly when `needle` occurs at some position of `hay`. */
  lemma {:induction false} ContainsIff(hay: string, needle: string)
    ensures Contains(hay, needle) <==> exists i :: OccursAt(hay, needle, i)
  {
    if needle <= hay {
      assert OccursAt(hay, needle, 0);
    } else if hay != [] {
      ContainsIff(hay[1..], needle);
      if exists i :: OccursAt(hay, needle, i) {
        var i :| OccursAt(hay, needle, i);
        assert i != 0;
        OccursInTail(hay, needle, i - 1);
      }
      if Contains(hay[1..], needle) {
        var j :| OccursAt(hay[1..], needle, j);
        OccursInTail(hay, needle, j);
      }
    }
  }

  /** An occurrence in `hay[1..]` at `j` is an occurrence in `hay` at `j + 1`, and back. */
  lemma OccursInTail(hay: string, needle: string, j: int)
    requires hay != [] && 0 <= j
    ensures OccursAt(hay[1..], needle, j) <==> OccursAt(hay, needle, j + 1)
  {
    if j + |needle| <= |hay[1..]| {
      assert hay[1..][j..j + |needle|] == hay[j + 1..j + 1 + |needle|];
    }
  }

  /** Every string contains the empty string, so an empty search term keeps everything that has the field. */
  lemma ContainsEmpty(hay: string)
    ensures Contains(hay, "")
  {
    assert "" <= hay;
  }

  predicate IsDigit(c: char) {
    '0' <= c <= '9'
  }

  function DigitChar(d: nat): char
    requires d < 10
  {
    (48 + d) as char
  }

  function DigitValue(c: char): nat
    requires IsDigit(c)
  {
    c as int - 48
  }

  /** The decimal rendering of a natural number, as `String(n)` gives it. */
  function ShowNat(n: nat): (r: string)
    ensures r != [] && forall k :: 0 <= k < |r| ==> IsDigit(r[k])
  {
    if n < 10 then [DigitChar(n)] else ShowNat(n / 10) + [DigitChar(n % 10)]
  }

  /** The decimal rendering of an integer, with a leading `-` when negative. */
  function ShowInt(n: int): (r: string)
    ensures r != [] && !IsWhitespace(r[0])
  {
    if n < 0 then "-" + ShowNat(-n) else ShowNat(n)
  }

  /** The longest prefix of `s` made of decimal digits. */
  function DigitPrefix(s: string): (r: string)
    ensures r <= s
    ensures forall k :: 0 <= k < |r| ==> IsDigit(r[k])
    ensures |r| == |s| || !IsDigit(s[|r|])
  {
    if s == [] || !IsDigit(s[0]) then [] else [s[0]] + DigitPrefix(s[1..])
  }

  /** The value of a string of decimal digits, most significant first. */
  function DigitsValue(ds: string): nat
    requires forall k :: 0 <= k < |ds| ==> IsDigit(ds[k])
  {
    if ds == [] then 0 else DigitsValue(ds[..|ds| - 1]) * 10 + DigitValue(ds[|ds| - 1])
  }

  /**
   * The number `parseInt(s)` (and, on integers, `parseFloat(s)`) reads: leading
   * white space is skipped, then an optional sign, then the longest run of
   * digits; `None` stands for `NaN`, when no digit follows.
   */
  function ParseInt(s: string): (r: Option<int>)
    ensures (forall k :: 0 <= k < |s| ==> IsWhitespace(s[k])) ==> r == None
    ensures r.Some? ==> exists k :: 0 <= k < |s| && IsDigit(s[k])
  {
    SignedNeedsDigit(s, TrimStart(s));
    ParseSigned(TrimStart(s))
  }

  /** A suffix `t` of `s` that reads as a number holds a digit, so `s` does; a blank `s` reads as nothing. */
  lemma SignedNeedsDigit(s: string, t: string)
    requires |t| <= |s| && t == s[|s| - |t|..]
    requires t == [] || !IsWhitespace(t[0])
    ensures (forall k :: 0 <= k < |s| ==> IsWhitespace(s[k])) ==> ParseSigned(t) == None
    ensures ParseSigned(t).Some? ==> exists k :: 0 <= k < |s| && IsDigit(s[k])
  {
    if t != [] {
      assert t[0] == s[|s| - |t|];
    }
    if ParseSigned(t).Some? {
      var signed := t[0] == '-' || t[0] == '+';
      var u := if signed then t[1..] else t;
      assert ParseUnsigned(u).Some?;
      var i := if signed then 1 else 0;
      assert u[0] == DigitPrefix(u)[0] == t[i];
      assert IsDigit(s[|s| - |t| + i]);
    }
  }

  /** The signed number at the start of `t`, which has no leading white space. */
  function ParseSigned(t: string): Option<int> {
    if t != [] && t[0] == '-' then Negated(ParseUnsigned(t[1..]))
    else if t != [] && t[0] == '+' then ParseUnsigned(t[1..])
    else ParseUnsigned(t)
  }

  function Negated(v: Option<int>): Option<int> {
    match v
    case Some(x) => Some(-x)
    case None => None
  }

  /** The value of the run of digits at the start of `t`, `None` when `t` does not start with a digit. */
  function ParseUnsigned(t: string): Option<int> {
    var ds := DigitPrefix(t);
    if ds == [] then None else Some(DigitsValue(ds) as int)
  }

  lemma {:induction false} DigitPrefixOfDigits(s: string)
    requires forall k :: 0 <= k < |s| ==> IsDigit(s[k])
    ensures DigitPrefix(s) == s
  {
    if s != [] {
      DigitPrefixOfDigits(s[1..]);
    }
  }

  lemma {:induction false} ShowNatValue(n: nat)
    ensures DigitsValue(ShowNat(n)) == n
  {
    if n >= 10 {
      ShowNatValue(n / 10);
      var s := ShowNat(n);
      assert s[..|s| - 1] == ShowNat(n / 10);
    }
  }

  /** A string that does not start with white space is its own `TrimStart`. */
  lemma TrimStartNoLeadingSpace(s: string)
    requires s != [] && !IsWhitespace(s[0])
    ensures TrimStart(s) == s
  {
  }

  lemma TrimEndNoTrailingSpace(s: string)
    requires s != [] && !IsWhitespace(s[|s| - 1])
    ensures TrimEnd(s) == s
  {
  }

  lemma ParseUnsignedDigits(s: string)
    requires s != [] && forall k :: 0 <= k < |s| ==> IsDigit(s[k])
    ensures ParseUnsigned(s) == Some(DigitsValue(s) as int)
  {
    DigitPrefixOfDigits(s);
  }

  /** A string starting with a digit reads, with no sign, as its run of digits. */
  lemma ParseSignedDigits(s: string, v: int)
    requires s != [] && IsDigit(s[0]) && ParseUnsigned(s) == Some(v)
    ensures ParseSigned(s) == Some(v)
  {
  }

  /** A minus sign followed by a run of digits reads as the negated value. */
  lemma ParseSignedNegated(s: string, v: int)
    requires ParseUnsigned(s) == Some(v)
    ensures ParseSigned("-" + s) == Some(-v)
  {
    var m := "-" + s;
    assert m[0] == '-' && m[1..] == s;
  }

  /** Parsing the rendering of an integer gives that integer back. */
  lemma ParseShowInt(n: int)
    ensures ParseInt(ShowInt(n)) == Some(n)
  {
    TrimStartNoLeadingSpace(ShowInt(n));
    var d := if n < 0 then -n else n;
    ParseUnsignedDigits(ShowNat(d));
    ShowNatValue(d);
    if n < 0 {
      ParseSignedNegated(ShowNat(d), d);
    } else {
      ParseSignedDigits(ShowNat(d), d);
    }
  }

  /** Distinct integers have distinct renderings. */
  lemma ShowIntInjective(m: int, n: int)
    ensures ShowInt(m) == ShowInt(n) ==> m == n
  {
    ParseShowInt(m);
    ParseShowInt(n);
  }
}
