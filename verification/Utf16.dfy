/**
 JavaScript text: sequences of UTF-16 code units, and how `JSON.stringify`
 writes them inside a string literal (section 7 of RFC 8259, with the lower-case
 escapes and the escaped lone surrogates of ECMAScript).
 */
module Utf16 {
  import opened Whitespace

  type Unit = u: int | 0 <= u < 0x10000

  type Text = seq<Unit>

  const QUOTE: Unit := 34
  const BACKSLASH: Unit := 92

  /** The units of a literal; every character used in one is below U+10000. */
  function Units(s: string): (t: Text)
    ensures |t| == |s|
  {
    seq(|s|, i requires 0 <= i < |s| => if s[i] as int < 0x10000 then s[i] as int else 0xFFFD)
  }

  function TrimStart(t: Text): Text
  {
    if t != [] && IsSpaceCode(t[0]) then TrimStart(t[1..]) else t
  }

  function TrimEnd(t: Text): Text
  {
    if t != [] && IsSpaceCode(t[|t| - 1]) then TrimEnd(t[..|t| - 1]) else t
  }

  function Trim(t: Text): Text
  {
    TrimEnd(TrimStart(t))
  }

  predicate High(u: Unit)
  {
    0xD800 <= u <= 0xDBFF
  }

  predicate Low(u: Unit)
  {
    0xDC00 <= u <= 0xDFFF
  }

  /** Cutting `t` at `cut` separates the two halves of a surrogate pair. */
  predicate SplitsPair(t: Text, cut: nat)
  {
    0 < cut < |t| && High(t[cut - 1]) && Low(t[cut])
  }

  function HexDigit(d: nat): (u: Unit)
    requires d < 16
  {
    if d < 10 then 48 + d else 87 + d
  }

  /** `\uXXXX`. */
  function HexEscape(u: Unit): (e: Text)
    ensures |e| == 6
  {
    [BACKSLASH, 117, HexDigit(u / 4096), HexDigit(u / 256 % 16), HexDigit(u / 16 % 16), HexDigit(u % 16)]
  }

  /** A unit that is not the half of a pair. */
  function EscapeUnit(u: Unit): (e: Text)
    ensures 1 <= |e| <= 6
  {
    if u == QUOTE || u == BACKSLASH then [BACKSLASH, u]
    else if u == 8 then [BACKSLASH, 98]
    else if u == 9 then [BACKSLASH, 116]
    else if u == 10 then [BACKSLASH, 110]
    else if u == 12 then [BACKSLASH, 102]
    else if u == 13 then [BACKSLASH, 114]
    else if u < 32 || High(u) || Low(u) then HexEscape(u)
    else [u]
  }

  predicate StartsPair(t: Text)
  {
    |t| >= 2 && High(t[0]) && Low(t[1])
  }

  /** The body of the JSON string literal for `t`. */
  function Escape(t: Text): Text
  {
    if t == [] then []
    else if StartsPair(t) then [t[0], t[1]] + Escape(t[2..])
    else EscapeUnit(t[0]) + Escape(t[1..])
  }

  /** Never shorter than the text, never more than six times as long. */
  lemma {:induction false} EscapeBounds(t: Text)
    ensures |t| <= |Escape(t)| <= 6 * |t|
  {
    if t != [] {
      if StartsPair(t) {
        EscapeBounds(t[2..]);
      } else {
        EscapeBounds(t[1..]);
      }
    }
  }

  /** Escaping distributes over a cut that leaves every pair whole. */
  lemma {:induction false} EscapeAppends(a: Text, b: Text)
    requires !SplitsPair(a + b, |a|)
    ensures Escape(a + b) == Escape(a) + Escape(b)
  {
    var t := a + b;
    if a == [] {
      assert t == b;
    } else if |a| >= 2 && StartsPair(a) {
      assert t[2..] == a[2..] + b;
      EscapeAppends(a[2..], b);
    } else {
      assert t[1..] == a[1..] + b;
      EscapeAppends(a[1..], b);
    }
  }

  // ----- reading a literal back

  function HexValue(u: Unit): (d: int)
    ensures -1 <= d < 16
  {
    if 48 <= u <= 57 then u - 48 else if 97 <= u <= 102 then u - 87 else -1
  }

  /** The text a JSON string body stands for; `[]`-padded inputs that are not well formed give what was read. */
  function Unescape(e: Text): Text
  {
    if e == [] then []
    else if e[0] != BACKSLASH || |e| == 1 then [e[0]] + Unescape(e[1..])
    else if e[1] == 117 && |e| >= 6 && (forall i :: 2 <= i < 6 ==> HexValue(e[i]) >= 0) then
      [HexValue(e[2]) * 4096 + HexValue(e[3]) * 256 + HexValue(e[4]) * 16 + HexValue(e[5])] + Unescape(e[6..])
    else
      var u := e[1];
      [if u == 98 then 8 else if u == 116 then 9 else if u == 110 then 10 else if u == 102 then 12
       else if u == 114 then 13 else u] + Unescape(e[2..])
  }

  lemma HexDigitReads(d: nat)
    requires d < 16
    ensures HexValue(HexDigit(d)) == d
  {}

  lemma HexDigitsSum(u: Unit)
    ensures u / 4096 * 4096 + u / 256 % 16 * 256 + u / 16 % 16 * 16 + u % 16 == u
  {
    assert u / 16 / 16 == u / 256 && u / 256 / 16 == u / 4096;
    assert u == u / 16 * 16 + u % 16;
    assert u / 16 == u / 16 / 16 * 16 + u / 16 % 16;
    assert u / 256 == u / 256 / 16 * 16 + u / 256 % 16;
  }

  lemma HexReadsBack(u: Unit, rest: Text)
    ensures Unescape(HexEscape(u) + rest) == [u] + Unescape(rest)
  {
    var e := HexEscape(u) + rest;
    HexDigitReads(u / 4096);
    HexDigitReads(u / 256 % 16);
    HexDigitReads(u / 16 % 16);
    HexDigitReads(u % 16);
    HexDigitsSum(u);
    assert e[6..] == rest;
  }

  lemma UnitReadsBack(u: Unit, rest: Text)
    ensures Unescape(EscapeUnit(u) + rest) == [u] + Unescape(rest)
  {
    var e := EscapeUnit(u) + rest;
    if |EscapeUnit(u)| == 6 {
      HexReadsBack(u, rest);
    } else if |EscapeUnit(u)| == 2 {
      assert e[2..] == rest;
    } else {
      assert e[1..] == rest;
    }
  }

  /** A JSON reader recovers every text, lone surrogates and control characters included. */
  lemma {:induction false} EscapeReadsBack(t: Text)
    ensures Unescape(Escape(t)) == t
  {
    if t != [] {
      if StartsPair(t) {
        var rest := Escape(t[2..]);
        EscapeReadsBack(t[2..]);
        assert ([t[0], t[1]] + rest)[1..] == [t[1]] + rest;
        assert ([t[1]] + rest)[1..] == rest;
      } else {
        EscapeReadsBack(t[1..]);
        UnitReadsBack(t[0], Escape(t[1..]));
      }
    }
  }
}
