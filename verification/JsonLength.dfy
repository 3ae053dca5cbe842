/**
 The exact length of a request before it is encoded: JSON string escapes (section 7 of
 RFC 8259) in their HTML-safe form over UTF-8 (section 4 of RFC 3629), where a byte that
 begins no valid sequence is written as the escape of U+FFFD.
 */
module JsonLength {

  type Byte = x: nat | x < 256

  const LIMIT: nat := 8388608

  // ---- UTF-8 ---------------------------------------------------------------------------

  predicate Scalar(r: nat)
  {
    r < 0xD800 || 0xE000 <= r <= 0x10FFFF
  }

  function Utf8(r: nat): (s: seq<Byte>)
    requires Scalar(r)
    ensures 1 <= |s| <= 4
  {
    if r < 0x80 then [r]
    else if r < 0x800 then [0xC0 + r / 64, 0x80 + r % 64]
    else if r < 0x10000 then [0xE0 + r / 4096, 0x80 + r / 64 % 64, 0x80 + r % 64]
    else [0xF0 + r / 262144, 0x80 + r / 4096 % 64, 0x80 + r / 64 % 64, 0x80 + r % 64]
  }

  datatype Rune = Rune(value: nat, size: nat)

  const INVALID: Rune := Rune(0xFFFD, 1)

  predicate Tail(b: Byte) { 0x80 <= b <= 0xBF }

  /** The second byte that each lead byte admits. */
  predicate Second(lead: Byte, b: Byte)
  {
    if lead == 0xE0 then 0xA0 <= b <= 0xBF
    else if lead == 0xED then 0x80 <= b <= 0x9F
    else if lead == 0xF0 then 0x90 <= b <= 0xBF
    else if lead == 0xF4 then 0x80 <= b <= 0x8F
    else Tail(b)
  }

  function Low(b: Byte): nat
    requires b >= 0x80
  {
    b - 0x80
  }

  /** utf8.DecodeRuneInString: a sequence by its lead byte's table entry, or an invalid byte. */
  function DecodeRune(s: seq<Byte>): Rune
    requires s != []
  {
    var b: nat := s[0];
    if b < 0x80 then Rune(b, 1)
    else if b < 0xC2 || b > 0xF4 then INVALID
    else if b < 0xE0 then
      if |s| >= 2 && Second(s[0], s[1]) then Rune((b - 0xC0) * 64 + Low(s[1]), 2) else INVALID
    else if b < 0xF0 then
      if |s| >= 3 && Second(s[0], s[1]) && Tail(s[2])
      then Rune((b - 0xE0) * 4096 + Low(s[1]) * 64 + Low(s[2]), 3) else INVALID
    else
      if |s| >= 4 && Second(s[0], s[1]) && Tail(s[2]) && Tail(s[3])
      then Rune((b - 0xF0) * 262144 + Low(s[1]) * 4096 + Low(s[2]) * 64 + Low(s[3]), 4) else INVALID
  }

  lemma Digits(a: nat, b: nat, c: nat)
    requires b < 64 && c < 64
    ensures (a * 64 + b) / 64 == a && (a * 64 + b) % 64 == b
    ensures (a * 4096 + b * 64 + c) / 4096 == a
    ensures (a * 4096 + b * 64 + c) / 64 == a * 64 + b && (a * 4096 + b * 64 + c) % 64 == c
  {
  }

  lemma MoreDigits(a: nat, b: nat, c: nat, d: nat)
    requires b < 64 && c < 64 && d < 64
    ensures var r := a * 262144 + b * 4096 + c * 64 + d;
            r / 262144 == a && r / 4096 % 64 == b && r / 64 % 64 == c && r % 64 == d
  {
    var r := a * 262144 + b * 4096 + c * 64 + d;
    assert r / 64 == a * 4096 + b * 64 + c && r % 64 == d;
    assert r / 4096 == a * 64 + b;
  }

  /** What the decoder accepts is the encoding of the scalar it reports. */
  lemma DecodesValid(s: seq<Byte>)
    requires s != [] && DecodeRune(s) != INVALID
    ensures var r := DecodeRune(s);
            Scalar(r.value) && r.size <= |s| && Utf8(r.value) == s[..r.size]
  {
    var b := s[0];
    if b < 0x80 {
    } else if b < 0xE0 {
      Digits(b - 0xC0, Low(s[1]), 0);
    } else if b < 0xF0 {
      Digits(b - 0xE0, Low(s[1]), Low(s[2]));
    } else {
      MoreDigits(b - 0xF0, Low(s[1]), Low(s[2]), Low(s[3]));
    }
  }

  /** Base-64 digits add up. */
  lemma Recomposed(r: nat)
    ensures r == (r / 64) * 64 + r % 64
    ensures r == (r / 4096) * 4096 + (r / 64 % 64) * 64 + r % 64
    ensures r == (r / 262144) * 262144 + (r / 4096 % 64) * 4096 + (r / 64 % 64) * 64 + r % 64
  {
    var q := r / 64;
    var p := q / 64;
    assert p == r / 4096 && p / 64 == r / 262144;
  }

  lemma DecodesTwo(s: seq<Byte>, r: nat)
    requires 0x80 <= r < 0x800 && Utf8(r) <= s
    ensures DecodeRune(s) == Rune(r, 2)
  {
    Recomposed(r);
    assert s[0] == Utf8(r)[0] && s[1] == Utf8(r)[1];
  }

  lemma DecodesThree(s: seq<Byte>, r: nat)
    requires 0x800 <= r < 0x10000 && Scalar(r) && Utf8(r) <= s
    ensures DecodeRune(s) == Rune(r, 3)
  {
    Recomposed(r);
    var a, b, c := r / 4096, r / 64 % 64, r % 64;
    assert s[0] == Utf8(r)[0] && s[1] == Utf8(r)[1] && s[2] == Utf8(r)[2];
    assert a == 0 ==> b >= 32;
    assert a == 13 ==> b < 32;
  }

  lemma DecodesFour(s: seq<Byte>, r: nat)
    requires 0x10000 <= r && Scalar(r) && Utf8(r) <= s
    ensures DecodeRune(s) == Rune(r, 4)
  {
    Recomposed(r);
    var a, b := r / 262144, r / 4096 % 64;
    assert s[0] == Utf8(r)[0] && s[1] == Utf8(r)[1] && s[2] == Utf8(r)[2] && s[3] == Utf8(r)[3];
    assert a == 0 ==> b >= 16;
    assert a == 4 ==> b < 16;
  }

  /** Every encoding is decoded. */
  lemma DecodesEvery(s: seq<Byte>, r: nat)
    requires Scalar(r) && Utf8(r) <= s
    ensures s != [] && DecodeRune(s) == Rune(r, |Utf8(r)|)
  {
    if r >= 0x10000 {
      DecodesFour(s, r);
    } else if r >= 0x800 {
      DecodesThree(s, r);
    } else if r >= 0x80 {
      DecodesTwo(s, r);
    }
  }

  // ---- Escapes ----------------------------------------------------------------------------

  function Hex(d: nat): Byte
    requires d < 16
  {
    if d < 10 then 48 + d else 87 + d
  }

  /** \\uXXXX. */
  function Unicode(r: nat): seq<Byte>
    requires r < 0x10000
  {
    [92, 117, Hex(r / 4096), Hex(r / 256 % 16), Hex(r / 16 % 16), Hex(r % 16)]
  }

  function EscapeRune(r: nat): seq<Byte>
    requires Scalar(r)
  {
    if r == 92 || r == 34 then [92, r]
    else if r == 8 then [92, 98]
    else if r == 12 then [92, 102]
    else if r == 10 then [92, 110]
    else if r == 13 then [92, 114]
    else if r == 9 then [92, 116]
    else if r < 0x20 || r == 60 || r == 62 || r == 38 || r == 0x2028 || r == 0x2029 then Unicode(r)
    else Utf8(r)
  }

  /** The body of the string literal; each step takes one scalar, or one byte that begins none. */
  ghost function Escape(s: seq<Byte>): seq<Byte>
    decreases |s|
  {
    if s == [] then []
    else if r: nat :| Scalar(r) && Utf8(r) <= s then EscapeRune(r) + Escape(s[|Utf8(r)|..])
    else Unicode(0xFFFD) + Escape(s[1..])
  }

  ghost function Quoted(s: seq<Byte>): seq<Byte>
  {
    [34] + Escape(s) + [34]
  }

  lemma EscapeStep(s: seq<Byte>)
    requires s != []
    ensures var r := DecodeRune(s);
            if r == INVALID then Escape(s) == Unicode(0xFFFD) + Escape(s[1..])
            else Scalar(r.value) && r.size <= |s| && Escape(s) == EscapeRune(r.value) + Escape(s[r.size..])
  {
    if DecodeRune(s) == INVALID {
      forall r: nat | Scalar(r) && Utf8(r) <= s
        ensures false
      {
        DecodesEvery(s, r);
        assert false;
      }
    } else {
      DecodesValid(s);
      var d := DecodeRune(s);
      assert Scalar(d.value) && Utf8(d.value) <= s;
      forall r: nat | Scalar(r) && Utf8(r) <= s
        ensures r == d.value
      {
        DecodesEvery(s, r);
      }
    }
  }

  lemma EscapeNothing()
    ensures Escape([]) == []
  {
  }

  lemma AsciiStep(s: seq<Byte>)
    requires s != [] && s[0] < 0x80
    ensures |Escape(s)| == |EscapeRune(s[0])| + |Escape(s[1..])|
  {
    EscapeStep(s);
  }

  lemma WideStep(s: seq<Byte>)
    requires s != [] && s[0] >= 0x80
    ensures var r := DecodeRune(s);
            && 1 <= r.size <= |s|
            && |Escape(s)| == (if r == INVALID || r.value == 0x2028 || r.value == 0x2029 then 6 else r.size) + |Escape(s[r.size..])|
  {
    EscapeStep(s);
    if DecodeRune(s) != INVALID {
      DecodesValid(s);
    }
  }

  function Saturated(n: nat): nat
  {
    if n <= LIMIT then n else LIMIT + 1
  }

  /** defaultJSONEscapedStringLength: the true length, saturated just above the limit. */
  method EscapedLength(value: seq<Byte>) returns (length: nat)
    ensures length == Saturated(|Quoted(value)|)
  {
    hide Escape, DecodeRune;
    length := 2;
    var index := 0;
    assert value[0..] == value;
    while index < |value|
      invariant 0 <= index <= |value|
      invariant 2 <= length <= LIMIT
      invariant length + |Escape(value[index..])| == |Quoted(value)|
    {
      var encoded := 0;
      if value[index] < 0x80 {
        AsciiStep(value[index..]);
        assert value[index..][1..] == value[index + 1..];
        var b := value[index];
        if b == 92 || b == 34 || b == 8 || b == 12 || b == 10 || b == 13 || b == 9 {
          encoded := 2;
        } else if b == 60 || b == 62 || b == 38 {
          encoded := 6;
        } else if b < 0x20 {
          encoded := 6;
        } else {
          encoded := 1;
        }
        index := index + 1;
      } else {
        var r := DecodeRune(value[index..]);
        WideStep(value[index..]);
        assert value[index..][r.size..] == value[index + r.size..];
        if r.value == 0xFFFD && r.size == 1 {
          encoded := 6;
        } else if r.value == 0x2028 || r.value == 0x2029 {
          encoded := 6;
        } else {
          encoded := r.size;
        }
        index := index + r.size;
      }
      if length > LIMIT - encoded {
        return LIMIT + 1;
      }
      length := length + encoded;
    }
    EscapeNothing();
    assert value[index..] == [];
  }

  // ---- The request ------------------------------------------------------------------------------

  /** A request with its dynamic strings filled in: the fixed pieces around them, in order. */
  ghost function Rendered(pieces: seq<seq<Byte>>, values: seq<seq<Byte>>): seq<Byte>
    requires |pieces| == |values| + 1
    decreases |values|
  {
    if values == [] then pieces[0] else pieces[0] + Quoted(values[0]) + Rendered(pieces[1..], values[1..])
  }

  function Blank(n: nat): (s: seq<seq<Byte>>)
    ensures |s| == n && forall i :: 0 <= i < n ==> s[i] == []
  {
    if n == 0 then [] else [[]] + Blank(n - 1)
  }

  ghost function Deltas(values: seq<seq<Byte>>): nat
  {
    if values == [] then 0 else |Escape(values[0])| + Deltas(values[1..])
  }

  /** Filling the strings in adds exactly their escaped lengths. */
  lemma {:induction false} RenderedLength(pieces: seq<seq<Byte>>, values: seq<seq<Byte>>)
    requires |pieces| == |values| + 1
    ensures |Rendered(pieces, values)| == |Rendered(pieces, Blank(|values|))| + Deltas(values)
    decreases |values|
  {
    if values != [] {
      RenderedLength(pieces[1..], values[1..]);
      assert Blank(|values|)[1..] == Blank(|values| - 1);
      assert Escape([]) == [];
    }
  }

  lemma {:induction false} DeltasSplit(values: seq<seq<Byte>>, k: nat)
    requires k < |values|
    ensures Deltas(values[..k + 1]) == Deltas(values[..k]) + |Escape(values[k])|
    ensures Deltas(values[..k + 1]) <= Deltas(values)
    decreases k
  {
    if k == 0 {
      assert values[..1][1..] == [] && values[..0] == [];
    } else {
      DeltasSplit(values[1..], k - 1);
      assert values[..k + 1][1..] == values[1..][..k] && values[..k][1..] == values[1..][..k - 1];
    }
  }

  /** preflightCall, on a baseline with empty dynamic strings. */
  method Preflight(ghost pieces: seq<seq<Byte>>, baseline: nat, values: seq<seq<Byte>>) returns (ok: bool)
    requires |pieces| == |values| + 1 && baseline == |Rendered(pieces, Blank(|values|))|
    ensures values != [] && baseline >= 2 ==> (ok <==> |Rendered(pieces, values)| <= LIMIT)
    ensures values == [] ==> ok
  {
    RenderedLength(pieces, values);
    var total := baseline;
    var k := 0;
    while k < |values|
      invariant 0 <= k <= |values|
      invariant total == baseline + Deltas(values[..k])
      invariant k > 0 ==> total <= LIMIT
    {
      DeltasSplit(values, k);
      var escaped := EscapedLength(values[k]);
      if escaped > LIMIT {
        return false;
      }
      var delta := escaped - 2;
      if total > LIMIT - delta {
        return false;
      }
      total := total + delta;
      k := k + 1;
    }
    assert values[..|values|] == values;
    return true;
  }
}
