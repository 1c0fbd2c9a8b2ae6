/** A JSON object that was cut short and then overwritten by the start of another one never
    reads: what a second notice on an unfinished line looks like to the reader. */
module Overwritten {
  import opened Decimal
  import opened Json

  /** `r` can be the start of a notice, or all of one. */
  predicate Second(r: string) {
    && r != "" && r[0] == '{' && (|r| > 1 ==> r[1] == QUOTE) && (|r| > 2 ==> r[2] == 'k')
    && (Read(r).Good? ==> Read(r).rest == "")
  }

  /** Neither a colon, nor a comma, nor a closing brace can be read from `rest`. */
  predicate Stuck(rest: string) { rest == "" || rest[0] == '{' || rest[0] == 'k' }

  lemma StuckEnds(rest: string, c: char)
    requires Stuck(rest) && (c == ':' || c == ',' || c == '}' || c == QUOTE)
    ensures Expect(c, rest) == Bad
  {
  }

  lemma CutJoin(a: string, b: string, k: nat, r: string)
    requires k <= |a| + |b|
    ensures (a + b)[..k] + r == if k <= |a| then a[..k] + r else a + (b[..k - |a|] + r)
  {
  }

  // ---------------------------------------------------------------- inside a string

  lemma FirstOpens(r: string)
    requires Second(r)
    ensures ReadChars(r).Good? ==> |r| >= 2 && ReadChars(r).rest == r[2..]
  {
    if |r| > 1 { assert r[1..][0] == QUOTE && r[1..][1..] == r[2..]; }
  }

  lemma CutEscape(c: char, k: nat, r: string)
    requires Second(r) && 0 < k < |Escape(c)|
    ensures ReadChars(Escape(c)[..k] + r) == Bad
  {
    var e := Escape(c);
    var s := e[..k] + r;
    assert s[0] == e[0] == BACKSLASH && s[k] == '{';
    if k > 1 {
      assert s[1] == e[1] == 'u';
      if |s| >= 6 { assert s[2..][k - 2] == '{'; }
    }
  }

  lemma {:induction false} CutChars(text: string, k: nat, r: string)
    requires Second(r) && k <= |EscapeAll(text)|
    ensures var p := ReadChars(EscapeAll(text)[..k] + r); p.Good? ==> |r| >= 2 && p.rest == r[2..]
  {
    if k == 0 {
      assert EscapeAll(text)[..k] + r == r;
      FirstOpens(r);
    } else {
      var e, later := Escape(text[0]), EscapeAll(text[1..]);
      CutJoin(e, later, k, r);
      if k < |e| {
        CutEscape(text[0], k, r);
      } else {
        assert k == |e| ==> e[..k] + r == e + (later[..0] + r);
        CutChars(text[1..], k - |e|, r);
        ReadEscaped(text[0], later[..k - |e|] + r);
      }
    }
  }

  // ---------------------------------------------------------------- inside a number

  lemma CutNat(d: string, r: string)
    requires Second(r) && forall i :: 0 <= i < |d| ==> IsDigit(d[i])
    ensures ReadNat(d + r).Good? ==> ReadNat(d + r).rest == r
  {
    DigitCountOf(d, r);
    assert (d + r)[|d|..] == r;
  }

  lemma CutInt(n: int, k: nat, r: string)
    requires Second(r) && 0 < k <= |WriteInt(n)|
    ensures var s := WriteInt(n)[..k] + r;
            s[0] == WriteInt(n)[0] && (ReadInt(s).Good? ==> ReadInt(s).rest == r)
  {
    var w := WriteInt(n);
    var s := w[..k] + r;
    if n < 0 {
      assert s[1..] == w[1..k] + r && w[1..] == Digits(-n);
      CutNat(w[1..k], r);
    } else {
      CutNat(w[..k], r);
    }
  }

  // ---------------------------------------------------------------- values and members

  lemma CutNumber(n: int, k: nat, r: string)
    requires Second(r) && 0 < k <= |WriteInt(n)|
    ensures var p := Read(WriteInt(n)[..k] + r); p.Good? ==> p.rest == r
  {
    CutInt(n, k, r);
    WriteStarts(Num(n));
    assert IsDigit(WriteInt(n)[0]) || WriteInt(n)[0] == '-';
  }

  lemma CutQuoted(b: string, k: nat, r: string)
    requires 0 < k < |b| + 2
    ensures ([QUOTE] + b + [QUOTE])[..k] + r == [QUOTE] + (b[..k - 1] + r)
  {
  }

  lemma OpenText(t: string)
    ensures Read([QUOTE] + t) ==
      if ReadChars(t).Bad? then Bad else Good(Str(ReadChars(t).value), ReadChars(t).rest)
  {
    assert ([QUOTE] + t)[1..] == t;
  }

  lemma CutText(text: string, k: nat, r: string)
    requires Second(r) && 0 < k < |Write(Str(text))|
    ensures var p := Read(Write(Str(text))[..k] + r); p.Good? ==> Stuck(p.rest)
  {
    CutQuoted(EscapeAll(text), k, r);
    CutChars(text, k - 1, r);
    OpenText(EscapeAll(text)[..k - 1] + r);
  }

  lemma CutBrace(t: string, k: nat, r: string)
    requires 0 < k <= |t| + 1
    ensures ("{" + t)[..k] + r == "{" + (t[..k - 1] + r)
  {
  }

  lemma CutStarts(m: Members, k: nat, r: string)
    requires Second(r) && k < |WriteMembers(m)|
    ensures var t := WriteMembers(m)[..k] + r; t[0] == QUOTE || t[0] == '{'
  {
  }

  lemma OpenObject(t: string)
    requires t != "" && (t[0] == QUOTE || t[0] == '{') && ReadMembers(t) == Bad
    ensures Read("{" + t) == Bad
  {
    assert ("{" + t)[1..] == t;
  }

  lemma CutObject(m: Members, k: nat, r: string)
    requires Second(r) && 0 < k < |Write(Obj(m))|
    requires ReadMembers(WriteMembers(m)[..k - 1] + r) == Bad
    ensures Read(Write(Obj(m))[..k] + r) == Bad
  {
    CutBrace(WriteMembers(m), k, r);
    CutStarts(m, k - 1, r);
    OpenObject(WriteMembers(m)[..k - 1] + r);
  }

  lemma {:induction false} CutValue(j: Json, k: nat, r: string)
    requires Second(r) && k < |Write(j)|
    ensures var p := Read(Write(j)[..k] + r); p.Good? ==> Stuck(p.rest)
    ensures j.Obj? && k > 0 ==> Read(Write(j)[..k] + r) == Bad
    decreases j, 1
  {
    if k == 0 {
      assert Write(j)[..k] + r == r;
    } else {
      match j
      case Str(text) => CutText(text, k, r);
      case Num(n) => CutNumber(n, k, r);
      case Obj(m) =>
        CutMembers(m, k - 1, r);
        CutObject(m, k, r);
    }
  }

  /** From a member's colon on: the value, and then a comma and the other members or the end. */
  function Tail(m: Members): string
    requires m.Member?
  {
    Write(m.value) + ((if m.rest.End? then "" else ",") + WriteMembers(m.rest))
  }

  /** A cut inside the value. */
  lemma CutInValue(key: string, value: Json, k: nat, r: string)
    requires k < |Write(value)|
    requires var p := Read(Write(value)[..k] + r); p.Good? ==> Stuck(p.rest)
    ensures var p := Read(Write(value)[..k] + r); p.Good? ==> Continue(key, p.value, p.rest) == Bad
  {
    var p := Read(Write(value)[..k] + r);
    if p.Good? { StuckEnds(p.rest, '}'); StuckEnds(p.rest, ','); }
  }

  /** A cut right after the value. */
  lemma CutAtValue(key: string, value: Json, r: string)
    requires Second(r)
    ensures Read(Write(value) + r) == Good(value, r) && Continue(key, value, r) == Bad
  {
    ReadWritten(value, r);
    StuckEnds(r, '}');
    StuckEnds(r, ',');
  }

  /** A cut after the comma that follows the value. */
  lemma CutAtComma(key: string, value: Json, rest: string)
    requires ReadMembers(rest) == Bad
    ensures Read(Write(value) + ("," + rest)) == Good(value, "," + rest) && Continue(key, value, "," + rest) == Bad
  {
    ReadWritten(value, "," + rest);
    ExpectHere(',', rest);
  }

  /** A cut in the value or after it. */
  lemma {:induction false} CutTail(m: Members, k: nat, r: string)
    requires m.Member? && Second(r) && k < |Tail(m)|
    ensures var p := Read(Tail(m)[..k] + r);
            p.Good? ==> Continue(m.key, p.value, p.rest) == Bad
    decreases m, 1
  {
    var e := Write(m.value);
    CutAfterValue(e, m, k, r);
    if k < |e| {
      CutValue(m.value, k, r);
      CutInValue(m.key, m.value, k, r);
    } else if k == |e| {
      CutAtValue(m.key, m.value, r);
    } else {
      CutMembers(m.rest, k - |e| - 1, r);
      CutAtComma(m.key, m.value, WriteMembers(m.rest)[..k - |e| - 1] + r);
    }
  }

  lemma CutAfterValue(e: string, m: Members, k: nat, r: string)
    requires m.Member? && e == Write(m.value) && k < |Tail(m)|
    ensures k < |e| ==> Tail(m)[..k] + r == e[..k] + r
    ensures k == |e| ==> Tail(m)[..k] + r == e + r
    ensures k > |e| ==> m.rest.Member? && k - |e| - 1 < |WriteMembers(m.rest)|
                        && Tail(m)[..k] + r == e + ("," + (WriteMembers(m.rest)[..k - |e| - 1] + r))
  {
    CutJoin(e, (if m.rest.End? then "" else ",") + WriteMembers(m.rest), k, r);
    if k > |e| { CutComma(WriteMembers(m.rest), k - |e|, r); }
  }

  lemma CutComma(t: string, k: nat, r: string)
    requires 0 < k <= |t| + 1
    ensures ("," + t)[..k] + r == "," + (t[..k - 1] + r)
  {
  }

  lemma AfterKey(key: string, s2: string)
    ensures ReadMembers([QUOTE] + (EscapeAll(key) + [QUOTE] + s2)) ==
      if Expect(':', s2).Bad? then Bad
      else
        match Read(Expect(':', s2).rest)
        case Bad => Bad
        case Good(value, s4) => Continue(key, value, s4)
  {
    ExpectHere(QUOTE, EscapeAll(key) + [QUOTE] + s2);
    ReadEscapedAll(key, s2);
  }

  /** A cut inside a key. */
  lemma CutKey(key: string, k: nat, r: string)
    requires Second(r) && k <= |EscapeAll(key)|
    ensures ReadMembers([QUOTE] + (EscapeAll(key)[..k] + r)) == Bad
  {
    var t := EscapeAll(key)[..k] + r;
    ExpectHere(QUOTE, t);
    CutChars(key, k, r);
    if ReadChars(t).Good? { StuckEnds(ReadChars(t).rest, ':'); }
  }

  /** A cut between a key and its colon. */
  lemma KeyThenSecond(key: string, r: string)
    requires Second(r)
    ensures ReadMembers([QUOTE] + (EscapeAll(key) + [QUOTE] + r)) == Bad
  {
    AfterKey(key, r);
    StuckEnds(r, ':');
  }

  /** A cut after the colon. */
  lemma KeyThenValue(key: string, t: string)
    requires Read(t).Good? ==> Continue(key, Read(t).value, Read(t).rest) == Bad
    ensures ReadMembers([QUOTE] + (EscapeAll(key) + [QUOTE] + (":" + t))) == Bad
  {
    AfterKey(key, ":" + t);
    ExpectHere(':', t);
  }

  /** What is left of a colon and `tail` after `k` characters. */
  lemma CutColon(tail: string, k: nat, r: string)
    requires k <= |tail| + 1
    ensures (":" + tail)[..k] + r == if k == 0 then r else ":" + (tail[..k - 1] + r)
  {
  }

  lemma MembersText(m: Members)
    requires m.Member?
    ensures WriteMembers(m) == [QUOTE] + (EscapeAll(m.key) + [QUOTE] + (":" + Tail(m)))
  {
  }

  /** Where a cut of such a text falls: in the key, or after it. */
  lemma CutThree(b: string, d: string, k: nat, r: string)
    requires 0 < k < |b| + 2 + |d|
    ensures ([QUOTE] + (b + [QUOTE] + d))[..k] + r ==
      if k - 1 <= |b| then [QUOTE] + (b[..k - 1] + r) else [QUOTE] + (b + [QUOTE] + (d[..k - 2 - |b|] + r))
  {
    var c := b + [QUOTE];
    assert ([QUOTE] + (c + d))[..k] + r == [QUOTE] + ((c + d)[..k - 1] + r);
    CutJoin(c, d, k - 1, r);
    if k - 1 <= |b| { assert c[..k - 1] == b[..k - 1]; }
    else if k - 1 == |c| { assert c[..k - 1] + r == c + (d[..0] + r); }
  }

  /** A cut after a key. */
  lemma CutAfterKey(key: string, tail: string, k: nat, r: string)
    requires Second(r) && k <= |tail| + 1
    requires k > 0 ==> (var p := Read(tail[..k - 1] + r); p.Good? ==> Continue(key, p.value, p.rest) == Bad)
    ensures ReadMembers([QUOTE] + (EscapeAll(key) + [QUOTE] + ((":" + tail)[..k] + r))) == Bad
  {
    CutColon(tail, k, r);
    if k == 0 { KeyThenSecond(key, r); } else { KeyThenValue(key, tail[..k - 1] + r); }
  }

  lemma {:induction false} CutMembers(m: Members, k: nat, r: string)
    requires Second(r) && k < |WriteMembers(m)|
    ensures ReadMembers(WriteMembers(m)[..k] + r) == Bad
    decreases m, 2
  {
    if k == 0 {
      assert WriteMembers(m)[..k] + r == r;
      StuckEnds(r, QUOTE);
    } else {
      var b := EscapeAll(m.key);
      MembersText(m);
      CutThree(b, ":" + Tail(m), k, r);
      if k - 1 <= |b| {
        CutKey(m.key, k - 1, r);
      } else {
        if k - 2 > |b| { CutTail(m, k - 3 - |b|, r); }
        CutAfterKey(m.key, Tail(m), k - 2 - |b|, r);
      }
    }
  }

  /** An object that is cut short anywhere and overwritten does not read. */
  lemma OverwrittenIsBad(m: Members, k: nat, r: string)
    requires Second(r) && 0 < k < |Write(Obj(m))|
    ensures Read(Write(Obj(m))[..k] + r) == Bad
  {
    CutValue(Obj(m), k, r);
  }

  /** Cut or whole, what is written after it is in the way. */
  lemma OverwrittenIsRefused(m: Members, k: nat, r: string)
    requires Second(r) && 0 < k <= |Write(Obj(m))|
    ensures var p := Read(Write(Obj(m))[..k] + r); p.Good? ==> SkipBlanks(p.rest) != ""
  {
    if k < |Write(Obj(m))| {
      OverwrittenIsBad(m, k, r);
    } else {
      assert Write(Obj(m))[..k] == Write(Obj(m));
      ReadWritten(Obj(m), r);
    }
  }
}
