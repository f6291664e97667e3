/**
 * The JavaScript string built-ins the prompt builders and the credential check rely on:
 * rendering an integer (`${n}`), `Array.prototype.join(', ')` over ids and
 * `String.prototype.trim`. The decoders (ParseInt, ParseIds, AfterLast, BeforeFirst) read
 * a rendered prompt back; they are the inverses the rendering is proved against.
 */
module JsText {

  predicate IsDigit(c: char) {
    '0' <= c <= '9'
  }

  function DigitChar(d: nat): (c: char)
    requires d < 10
    ensures IsDigit(c)
  {
    "0123456789"[d]
  }

  function DigitValue(c: char): nat {
    if IsDigit(c) then c as int - '0' as int else 0
  }

  /** Decimal rendering of a non-negative integer, most significant digit first, no leading zeros. */
  function NatToString(n: nat): (r: string)
    ensures |r| > 0
    ensures forall i :: 0 <= i < |r| ==> IsDigit(r[i])
    ensures r[0] == '0' <==> n == 0
  {
    if n < 10 then [DigitChar(n)] else NatToString(n / 10) + [DigitChar(n % 10)]
  }

  /** A character that may occur in a rendered id list. */
  predicate IdListChar(c: char) {
    IsDigit(c) || c == '-' || c == ',' || c == ' '
  }

  /** `${n}` for an integer-valued JavaScript number. */
  function IntToString(n: int): (r: string)
    ensures |r| > 0
    ensures forall i :: 0 <= i < |r| ==> IdListChar(r[i]) && r[i] != ','
    ensures r[0] == '-' <==> n < 0
    ensures n < 0 ==> |r| >= 2 && r[1] != '0' && forall i :: 1 <= i < |r| ==> IsDigit(r[i])
    ensures n >= 0 ==> (forall i :: 0 <= i < |r| ==> IsDigit(r[i])) && (r[0] == '0' ==> r == "0")
  {
    if n < 0 then "-" + NatToString(-n) else NatToString(n)
  }

  function ParseNat(s: string): nat {
    if s == [] then 0 else ParseNat(s[..|s| - 1]) * 10 + DigitValue(s[|s| - 1])
  }

  function ParseInt(s: string): int {
    if |s| > 0 && s[0] == '-' then -(ParseNat(s[1..]) as int) else ParseNat(s)
  }

  lemma {:induction false} ParseNatToString(n: nat)
    ensures ParseNat(NatToString(n)) == n
  {
    if n >= 10 {
      var p := NatToString(n / 10);
      var s := p + [DigitChar(n % 10)];
      assert s[..|s| - 1] == p;
      ParseNatToString(n / 10);
    }
  }

  /** Rendering an integer loses nothing: reading it back gives the same integer. */
  lemma {:induction false} ParseIntToString(n: int)
    ensures ParseInt(IntToString(n)) == n
  {
    if n < 0 {
      ParseNegative(n);
    } else {
      ParseNonNegative(n);
    }
  }

  lemma ParseNegative(n: int)
    requires n < 0
    ensures ParseInt(IntToString(n)) == n
  {
    var t := NatToString(-n);
    assert IntToString(n) == "-" + t;
    assert ("-" + t)[1..] == t;
    ParseNatToString(-n);
  }

  lemma ParseNonNegative(n: nat)
    ensures ParseInt(IntToString(n)) == n
  {
    var t := NatToString(n);
    assert IntToString(n) == t;
    assert t[0] != '-';
    ParseNatToString(n);
  }

  /** `ids.join(', ')`. */
  function JoinIds(xs: seq<int>): (r: string)
    ensures xs != [] <==> r != ""
    ensures forall i :: 0 <= i < |r| ==> IdListChar(r[i])
  {
    if xs == [] then ""
    else if |xs| == 1 then IntToString(xs[0])
    else IntToString(xs[0]) + ", " + JoinIds(xs[1..])
  }

  /** Index of the first `c` in `s`, or `|s|` when there is none. */
  function IndexOf(s: string, c: char): (k: nat)
    ensures k <= |s|
    ensures k < |s| ==> s[k] == c
    ensures forall i :: 0 <= i < k ==> s[i] != c
  {
    if s == [] then 0 else if s[0] == c then 0 else 1 + IndexOf(s[1..], c)
  }

  lemma IndexOfAppend(a: string, c: char, b: string)
    requires c !in a
    ensures IndexOf(a + [c] + b, c) == |a|
  {
    var s := a + [c] + b;
    var k := IndexOf(s, c);
    assert s[|a|] == c;
  }

  /** Splits a `join(', ')` rendering back into its integers. */
  function ParseIds(s: string): seq<int>
    decreases |s|
  {
    if s == [] then []
    else
      var k := IndexOf(s, ',');
      if k == |s| then [ParseInt(s)]
      else [ParseInt(s[..k])] + ParseIds(s[if k + 2 <= |s| then k + 2 else |s|..])
  }

  /** A single item without a comma parses as one integer. */
  lemma ParseIdsSingle(a: string)
    requires a != [] && ',' !in a
    ensures ParseIds(a) == [ParseInt(a)]
  {
    assert IndexOf(a, ',') == |a|;
  }

  /** A comma-free first item followed by `, ` parses as that integer, then the rest. */
  lemma ParseIdsCons(a: string, b: string)
    requires ',' !in a
    ensures ParseIds(a + ", " + b) == [ParseInt(a)] + ParseIds(b)
  {
    var s := a + ", " + b;
    assert s == a + [','] + (" " + b);
    IndexOfAppend(a, ',', " " + b);
    assert s[..|a|] == a;
    assert s[|a| + 2..] == b;
  }

  /** The id list rendered into a prompt reads back as exactly the same list. */
  lemma {:induction false} ParseJoinIds(xs: seq<int>)
    ensures ParseIds(JoinIds(xs)) == xs
  {
    if |xs| == 1 {
      ParseIdsSingle(IntToString(xs[0]));
      ParseIntToString(xs[0]);
    } else if |xs| > 1 {
      ParseIdsCons(IntToString(xs[0]), JoinIds(xs[1..]));
      ParseIntToString(xs[0]);
      ParseJoinIds(xs[1..]);
      assert xs == [xs[0]] + xs[1..];
    }
  }

  /** The text after the last `c` in `s` (all of `s` when `c` does not occur). */
  function AfterLast(s: string, c: char): (r: string)
    ensures c !in r
  {
    if s == [] then ""
    else if s[|s| - 1] == c then ""
    else AfterLast(s[..|s| - 1], c) + [s[|s| - 1]]
  }

  lemma {:induction false} AfterLastAppend(p: string, c: char, q: string)
    requires c !in q
    ensures AfterLast(p + [c] + q, c) == q
  {
    var s := p + [c] + q;
    if q != [] {
      var q' := q[..|q| - 1];
      assert s[..|s| - 1] == p + [c] + q';
      assert s[|s| - 1] == q[|q| - 1];
      AfterLastAppend(p, c, q');
      assert q == q' + [q[|q| - 1]];
    }
  }

  /** The text before the first `c` in `s` (all of `s` when `c` does not occur). */
  function BeforeFirst(s: string, c: char): (r: string)
    ensures c !in r
  {
    s[..IndexOf(s, c)]
  }

  lemma BeforeFirstAppend(a: string, c: char, b: string)
    requires c !in a
    ensures BeforeFirst(a + [c] + b, c) == a
  {
    IndexOfAppend(a, c, b);
    assert (a + [c] + b)[..|a|] == a;
  }

  /**
   * WhiteSpace and LineTerminator of ECMAScript, the characters `String.prototype.trim`
   * removes: TAB, LF, VT, FF, CR, SPACE, NBSP, the space separators of Unicode category
   * Zs, LINE SEPARATOR, PARAGRAPH SEPARATOR and the byte order mark.
   */
  predicate IsJsWhitespace(c: char) {
    c == '\t' || c == '\n' || c == '\U{000B}' || c == '\U{000C}' || c == '\r' || c == ' '
    || c == '\U{00A0}' || c == '\U{1680}' || ('\U{2000}' <= c <= '\U{200A}')
    || c == '\U{2028}' || c == '\U{2029}' || c == '\U{202F}' || c == '\U{205F}'
    || c == '\U{3000}' || c == '\U{FEFF}'
  }

  function TrimStart(s: string): (r: string)
    ensures |r| <= |s| && r == s[|s| - |r|..]
    ensures r != [] ==> !IsJsWhitespace(r[0])
    ensures forall i :: 0 <= i < |s| - |r| ==> IsJsWhitespace(s[i])
  {
    if s != [] && IsJsWhitespace(s[0]) then TrimStart(s[1..]) else s
  }

  function TrimEnd(s: string): (r: string)
    ensures |r| <= |s| && r == s[..|r|]
    ensures r != [] ==> !IsJsWhitespace(r[|r| - 1])
    ensures forall i :: |r| <= i < |s| ==> IsJsWhitespace(s[i])
  {
    if s != [] && IsJsWhitespace(s[|s| - 1]) then TrimEnd(s[..|s| - 1]) else s
  }

  /** `s.trim()`: empty exactly when every character of `s` is white space. */
  function Trim(s: string): (r: string)
    ensures r == "" <==> forall i :: 0 <= i < |s| ==> IsJsWhitespace(s[i])
    ensures r != "" ==> !IsJsWhitespace(r[0]) && !IsJsWhitespace(r[|r| - 1])
  {
    TrimEnd(TrimStart(s))
  }
}
