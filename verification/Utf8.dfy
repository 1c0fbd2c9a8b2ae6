/** Text as bytes: the UTF-8 of RFC 3629. */
module Utf8 {
  import opened Options

  newtype byte = b: int | 0 <= b < 0x100

  /** The UTF-8 form of one character (section 3 of RFC 3629). */
  function EncodeChar(c: char): (e: seq<byte>)
    ensures 1 <= |e| <= 4
  {
    var n := c as int;
    if n < 0x80 then [n as byte]
    else if n < 0x800 then [(0xC0 + n / 64) as byte, Tail(n)]
    else if n < 0x1_0000 then [(0xE0 + n / 64 / 64) as byte, Tail(n / 64), Tail(n)]
    else [(0xF0 + n / 64 / 64 / 64) as byte, Tail(n / 64 / 64), Tail(n / 64), Tail(n)]
  }

  /** A byte that carries six more bits. */
  function Tail(n: nat): byte { (0x80 + n % 64) as byte }

  function Encode(s: string): seq<byte> {
    if s == "" then [] else EncodeChar(s[0]) + Encode(s[1..])
  }

  /** The examples of section 7 of RFC 3629: "A<NOT IDENTICAL TO><ALPHA>." and the
      character U+233B4. */
  lemma StandardExamples()
    ensures Encode("A\U{2262}\U{0391}.") == [0x41, 0xE2, 0x89, 0xA2, 0xCE, 0x91, 0x2E]
    ensures Encode("\U{233B4}") == [0xF0, 0xA3, 0x8E, 0xB4]
  {
    var s := "A\U{2262}\U{0391}.";
    assert s[1..] == "\U{2262}\U{0391}." && s[1..][1..] == "\U{0391}." && s[1..][1..][1..] == ".";
    assert EncodeChar('A') == [0x41] && EncodeChar('\U{2262}') == [0xE2, 0x89, 0xA2];
    assert EncodeChar('\U{0391}') == [0xCE, 0x91] && EncodeChar('.') == [0x2E];
    assert EncodeChar('\U{233B4}') == [0xF0, 0xA3, 0x8E, 0xB4];
  }

  // ---------------------------------------------------------------- reading

  predicate IsTail(b: byte) { 0x80 <= b <= 0xBF }

  /** Which two bytes may start a character of three or four (section 4 of RFC 3629). */
  predicate MayStart(a: byte, b: byte) {
    IsTail(b) && (a == 0xE0 ==> b >= 0xA0) && (a == 0xED ==> b <= 0x9F) && (a == 0xF0 ==> b >= 0x90)
    && (a == 0xF4 ==> b <= 0x8F)
  }

  /** The number of bytes in a character that starts with `a`, or 0 if none does. */
  function Width(a: byte): nat {
    if a < 0x80 then 1 else if 0xC2 <= a <= 0xDF then 2
    else if 0xE0 <= a <= 0xEF then 3 else if 0xF0 <= a <= 0xF4 then 4 else 0
  }

  /** The first `Width(bs[0])` bytes are a character. */
  predicate Starts(bs: seq<byte>)
    requires bs != []
  {
    var w := Width(bs[0]);
    && 0 < w <= |bs| && (w == 2 ==> IsTail(bs[1])) && (w >= 3 ==> MayStart(bs[0], bs[1]) && IsTail(bs[2]))
    && (w == 4 ==> IsTail(bs[3]))
  }

  function Bits(b: byte): nat { b as int % 64 }

  function FirstChar(bs: seq<byte>): char
    requires bs != [] && Starts(bs)
  {
    var a := bs[0] as int;
    if a < 0x80 then a as char
    else if a < 0xE0 then (64 * (a - 0xC0) + Bits(bs[1])) as char
    else if a < 0xF0 then (64 * (64 * (a - 0xE0) + Bits(bs[1])) + Bits(bs[2])) as char
    else (64 * (64 * (64 * (a - 0xF0) + Bits(bs[1])) + Bits(bs[2])) + Bits(bs[3])) as char
  }

  /** The text of well-formed UTF-8, and None for anything else. */
  function Decode(bs: seq<byte>): Option<string> {
    if bs == [] then Some("")
    else if !Starts(bs) then None
    else
      var later := Decode(bs[Width(bs[0])..]);
      if later.None? then None else Some([FirstChar(bs)] + later.value)
  }

  // ---------------------------------------------------------------- one character

  lemma TailReadsBack(n: nat)
    ensures IsTail(Tail(n)) && 64 * (n / 64) + Bits(Tail(n)) == n
  {
  }

  lemma TailIsWritten(n: nat, b: byte)
    requires IsTail(b)
    ensures (64 * n + Bits(b)) / 64 == n && Tail(64 * n + Bits(b)) == b
  {
  }

  lemma CharReadsBack(c: char, bs: seq<byte>)
    requires EncodeChar(c) <= bs
    ensures Starts(bs) && Width(bs[0]) == |EncodeChar(c)| && FirstChar(bs) == c
  {
    var e, n := EncodeChar(c), c as int;
    assert forall i :: 0 <= i < |e| ==> bs[i] == e[i];
    TailReadsBack(n);
    TailReadsBack(n / 64);
    TailReadsBack(n / 64 / 64);
  }

  lemma ThreeAreWritten(bs: seq<byte>)
    requires bs != [] && Starts(bs) && Width(bs[0]) == 3
    ensures bs[..3] == EncodeChar(FirstChar(bs))
  {
    var high := bs[0] as int - 0xE0;
    var n := 64 * high + Bits(bs[1]);
    TailIsWritten(high, bs[1]);
    TailIsWritten(n, bs[2]);
    assert 0x800 <= FirstChar(bs) as int < 0x1_0000;
  }

  lemma FourAreWritten(bs: seq<byte>)
    requires bs != [] && Starts(bs) && Width(bs[0]) == 4
    ensures bs[..4] == EncodeChar(FirstChar(bs))
  {
    var high := bs[0] as int - 0xF0;
    var n := 64 * high + Bits(bs[1]);
    var m := 64 * n + Bits(bs[2]);
    TailIsWritten(high, bs[1]);
    TailIsWritten(n, bs[2]);
    TailIsWritten(m, bs[3]);
    assert 0x1_0000 <= FirstChar(bs) as int;
  }

  lemma CharIsWritten(bs: seq<byte>)
    requires bs != [] && Starts(bs)
    ensures bs[..Width(bs[0])] == EncodeChar(FirstChar(bs))
  {
    var w := Width(bs[0]);
    if w == 2 {
      TailIsWritten(bs[0] as int - 0xC0, bs[1]);
    } else if w == 3 {
      ThreeAreWritten(bs);
    } else if w == 4 {
      FourAreWritten(bs);
    }
  }

  lemma DecodeChar(c: char, t: seq<byte>)
    ensures Decode(EncodeChar(c) + t) == if Decode(t).None? then None else Some([c] + Decode(t).value)
  {
    CharReadsBack(c, EncodeChar(c) + t);
    assert (EncodeChar(c) + t)[|EncodeChar(c)|..] == t;
  }

  // ---------------------------------------------------------------- whole texts

  lemma {:induction false} EncodeReadsBack(s: string)
    ensures Decode(Encode(s)) == Some(s)
  {
    if s != "" {
      EncodeReadsBack(s[1..]);
      DecodeChar(s[0], Encode(s[1..]));
      assert [s[0]] + s[1..] == s;
    }
  }

  /** Bytes are read as `s` iff they are the UTF-8 of `s`: each text has one form, and
      everything else is refused. */
  lemma {:induction false} DecodeIsExact(bs: seq<byte>, s: string)
    ensures Decode(bs) == Some(s) <==> bs == Encode(s)
  {
    EncodeReadsBack(s);
    if bs != [] && Decode(bs) == Some(s) {
      var w := Width(bs[0]);
      CharIsWritten(bs);
      DecodeIsExact(bs[w..], s[1..]);
      assert bs[..w] + bs[w..] == bs;
    }
  }

  lemma Regroup(a: seq<byte>, b: seq<byte>, c: seq<byte>)
    ensures a + (b + c) == a + b + c
  {
  }

  lemma {:induction false} EncodeJoins(s: string, t: string)
    ensures Encode(s + t) == Encode(s) + Encode(t)
  {
    if s == "" {
      assert s + t == t;
    } else {
      EncodeJoins(s[1..], t);
      assert (s + t)[1..] == s[1..] + t;
      Regroup(EncodeChar(s[0]), Encode(s[1..]), Encode(t));
    }
  }

  /** A line break in the bytes is a line break in the text. */
  lemma {:induction false} NoBreakInside(s: string)
    requires forall i :: 0 <= i < |s| ==> s[i] != '\n'
    ensures forall i :: 0 <= i < |Encode(s)| ==> Encode(s)[i] != 0x0A
  {
    if s != "" { NoBreakInside(s[1..]); }
  }

  // ---------------------------------------------------------------- cut texts

  /** How many characters of `s` are complete in its first `k` bytes. */
  function Complete(s: string, k: nat): (j: nat)
    ensures j <= |s|
  {
    if s == "" || k < |EncodeChar(s[0])| then 0 else 1 + Complete(s[1..], k - |EncodeChar(s[0])|)
  }

  /** A cut after `k` bytes falls between two characters of `s`. */
  predicate Between(s: string, k: nat) {
    k == 0 || (s != "" && k >= |EncodeChar(s[0])| && Between(s[1..], k - |EncodeChar(s[0])|))
  }

  lemma CutCharIsRefused(c: char, k: nat)
    requires 0 < k < |EncodeChar(c)|
    ensures Decode(EncodeChar(c)[..k]) == None
  {
    CharReadsBack(c, EncodeChar(c));
  }

  /** Cut UTF-8 anywhere: between characters it is the text so far, and inside one it is
      not text. */
  lemma {:induction false} CutIsTextOrNone(s: string, k: nat)
    requires k <= |Encode(s)|
    ensures Decode(Encode(s)[..k]) == if Between(s, k) then Some(s[..Complete(s, k)]) else None
    ensures Between(s, k) ==> (Complete(s, k) == 0 <==> k == 0) && (Complete(s, k) == |s| <==> k == |Encode(s)|)
  {
    if s != "" {
      var e, later := EncodeChar(s[0]), Encode(s[1..]);
      if k < |e| {
        assert Encode(s)[..k] == e[..k];
        if k > 0 { CutCharIsRefused(s[0], k); }
      } else {
        CutIsTextOrNone(s[1..], k - |e|);
        assert Encode(s)[..k] == e + later[..k - |e|];
        DecodeChar(s[0], later[..k - |e|]);
        assert [s[0]] + s[1..][..Complete(s[1..], k - |e|)] == s[..Complete(s, k)];
      }
    }
  }
}
