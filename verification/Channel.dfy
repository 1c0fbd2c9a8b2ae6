/** The evidence channel of the protocol, line by line, against its bytes: what the supervisor
    hears of the bytes that a child gets out is what the protocol's lines say
    (src/process.rs). */
module Channel {
  import opened Bootstrap
  import opened Framing
  import opened Json
  import opened Lines
  import opened Notices
  import opened Options
  import opened Overwritten
  import opened Text
  import opened Utf8

  type Texts = ChildNotice -> string
  type Parser = string -> Option<ChildNotice>

  /** The bytes of one whole call of send_notice, when `text` writes a notice. */
  function Full(n: ChildNotice, text: Texts): seq<byte> { Encode(text(n)) + [BREAK] }

  /** How the protocol sees a call that gets `k` bytes out. */
  function OutcomeOf(n: ChildNotice, k: nat, text: Texts): Outcome {
    var size := |Encode(text(n))|;
    if k == 0 then Outcome.Bad else if k < size then Torn else if k == size then Bare else Outcome.Good
  }

  function Wholes(ns: seq<ChildNotice>): seq<Line> {
    if ns == [] then [] else [Whole(ns[0])] + Wholes(ns[1..])
  }

  /** What a child does with its end of the channel: it sends `ns`, then `k` bytes of `last`, and,
      unless that is all of it, `j` bytes of `report`. */
  datatype Talk = Talk(ns: seq<ChildNotice>, last: ChildNotice, k: nat, report: ChildNotice, j: nat)
  {
    predicate Fits(text: Texts) {
      report.Failed? && k <= |Full(last, text)| && j <= |Full(report, text)|
    }
  }

  /** The protocol's lines of such a child. */
  function LinesSent(t: Talk, text: Texts): seq<Line> {
    Wholes(t.ns) + LastLines(t, text)
  }

  function LastLines(t: Talk, text: Texts): seq<Line> {
    var o := OutcomeOf(t.last, t.k, text);
    if o.Bad? then Begins(t.report, OutcomeOf(t.report, t.j, text))
    else if o.Good? || t.j == 0 then Begins(t.last, o)
    else [Garbled]
  }

  /** The same in bytes. */
  function BytesSent(t: Talk, text: Texts): seq<byte>
    requires t.Fits(text)
  {
    Stream(t.ns, text) + LastBytes(t, text)
  }

  function LastBytes(t: Talk, text: Texts): seq<byte>
    requires t.Fits(text)
  {
    if t.k == |Full(t.last, text)| then Full(t.last, text)
    else Full(t.last, text)[..t.k] + Full(t.report, text)[..t.j]
  }

  /** What a call of send_notice that ends with `o`, and a report after it that ends with `r`,
      make of the lines in the protocol. */
  function SendsAndReports(sent: seq<Line>, last: ChildNotice, o: Outcome, r: Outcome): seq<Line> {
    var after := sent + Begins(last, o);
    if o.Good? then after
    else if o.Torn? || o.Bare? then (if r.Bad? then after else Spoilt(after))
    else after + Begins(Failed(""), r)
  }

  /** That is what its steps do. */
  lemma ProtocolSends(cfg: Config, h: Host, c: Child, last: ChildNotice, o: Outcome, r: Outcome, next: ChildPc)
    requires h.task.Some? && !o.Good? && KidCan(cfg, h, Sends(c, last, o, next), r)
    ensures KidDo(cfg, h, Sends(c, last, o, next), r).sent == SendsAndReports(c.sent, last, o, r)
  {
  }

  lemma SpoiltLast(sent: seq<Line>, l: Line)
    ensures Spoilt(sent + [l]) == sent + [Garbled] && sent + [] == sent
  {
  }

  /** And that is what `LinesSent` says; the protocol does not tell reports apart. */
  lemma LinesAreProtocol(t: Talk, text: Texts)
    requires t.report == Failed("")
    ensures LinesSent(t, text) ==
      SendsAndReports(Wholes(t.ns), t.last, OutcomeOf(t.last, t.k, text), OutcomeOf(t.report, t.j, text))
  {
    var o := OutcomeOf(t.last, t.k, text);
    SpoiltLast(Wholes(t.ns), if o.Torn? then Garbled else Whole(t.last));
  }

  /** What the protocol's reader makes of lines: the notices up to the first that is garbled. */
  function Understood(lines: seq<Line>): seq<ChildNotice> {
    if lines == [] || lines[0].Garbled? then [] else [lines[0].notice] + Understood(lines[1..])
  }

  predicate AllWhole(lines: seq<Line>) {
    forall i :: 0 <= i < |lines| ==> lines[i].Whole?
  }

  /** The bytes and the lines tell the reader the same. */
  predicate Agrees(heard: Heard<ChildNotice>, lines: seq<Line>) {
    heard.messages == Understood(lines) && (heard.ending == Intact <==> AllWhole(lines))
  }

  lemma AgreesWith(heard: Heard<ChildNotice>, n: ChildNotice, lines: seq<Line>)
    requires Agrees(heard, lines)
    ensures Agrees(heard.After(n), [Whole(n)] + lines)
  {
    assert ([Whole(n)] + lines)[1..] == lines;
    assert AllWhole([Whole(n)] + lines) <==> AllWhole(lines);
  }

  lemma Regrouped<T>(a: seq<T>, b: seq<T>, c: seq<T>)
    ensures a + b + c == a + (b + c)
  {
  }

  // ---------------------------------------------------------------- any way to write and parse a notice

  /** No part of a report after part of another notice makes the line one that parses. */
  ghost predicate Mixing(text: Texts, parse: Parser) {
    forall n, k: nat, report: ChildNotice, j: nat ::
      report.Failed? && 0 < k <= |Encode(text(n))| && 0 < j <= |Full(report, text)| ==>
        MixIsRefused(Encode(text(n))[..k] + Full(report, text)[..j], parse)
  }

  predicate MixIsRefused(bytes: seq<byte>, parse: Parser) {
    Decode(bytes).Some? ==> parse(Decode(bytes).value) == None
  }

  lemma {:induction false} AgreesAfter(
    ns: seq<ChildNotice>, t: seq<byte>, lines: seq<Line>, text: Texts, parse: Parser, ok: ChildNotice -> bool)
    requires Codec(text, parse, ok) && (forall i :: 0 <= i < |ns| ==> ok(ns[i])) && Agrees(Hear(t, parse), lines)
    ensures Agrees(Hear(Stream(ns, text) + t, parse), Wholes(ns) + lines)
  {
    if ns == [] {
      assert Stream(ns, text) + t == t && Wholes(ns) + lines == lines;
    } else {
      var u, later := Stream(ns[1..], text) + t, Wholes(ns[1..]) + lines;
      AgreesAfter(ns[1..], t, lines, text, parse, ok);
      HearMessage(ns[0], u, text, parse, ok);
      AgreesWith(Hear(u, parse), ns[0], later);
      Regrouped(Full(ns[0], text), Stream(ns[1..], text), t);
      Regrouped([Whole(ns[0])], Wholes(ns[1..]), lines);
    }
  }

  lemma CutOfLine(e: seq<byte>, k: nat)
    requires k <= |e|
    ensures (e + [BREAK])[..k] == (e + [BREAK] + [])[..k] == e[..k]
  {
  }

  lemma OneLineIsHeard(n: ChildNotice, k: nat, text: Texts, parse: Parser, ok: ChildNotice -> bool)
    requires Codec(text, parse, ok) && ok(n) && k <= |Full(n, text)|
    ensures Agrees(Hear(Full(n, text)[..k], parse), Begins(n, OutcomeOf(n, k, text)))
  {
    if k == |Full(n, text)| {
      HearMessage(n, [], text, parse, ok);
      assert Full(n, text)[..k] == Full(n, text) + [];
    } else if k > 0 {
      CutOfLine(Encode(text(n)), k);
      CutInFirst(n, [], k, text, parse, ok);
    }
  }

  lemma CutLineLength(a: seq<byte>, b: seq<byte>, j: nat)
    requires Unbroken(a) && Unbroken(b) && 0 < j <= |b| + 1
    ensures var t := a + (b + [BREAK])[..j]; t != [] && LineLength(t) == |t|
  {
    if j <= |b| {
      assert (b + [BREAK])[..j] == b[..j];
      LineLengthOf(a + b[..j], []);
    } else {
      LineLengthOf(a + b, []);
      assert a + (b + [BREAK])[..j] == a + b + [BREAK] + [];
    }
  }

  /** Nothing is heard of a line that a report was written on. */
  lemma MixedIsUnheard(
    n: ChildNotice, k: nat, report: ChildNotice, j: nat, text: Texts, parse: Parser, ok: ChildNotice -> bool)
    requires Codec(text, parse, ok) && Mixing(text, parse) && ok(n) && ok(report) && report.Failed?
    requires 0 < k <= |Encode(text(n))| && 0 < j <= |Full(report, text)|
    ensures Agrees(Hear(Encode(text(n))[..k] + Full(report, text)[..j], parse), [Garbled])
  {
    var t := Encode(text(n))[..k] + Full(report, text)[..j];
    NoBreakInside(text(n));
    NoBreakInside(text(report));
    CutLineLength(Encode(text(n))[..k], Encode(text(report)), j);
    assert MixIsRefused(t, parse);
    assert t[..|t|] == t;
  }

  lemma LastIsHeard(t: Talk, text: Texts, parse: Parser, ok: ChildNotice -> bool)
    requires Codec(text, parse, ok) && Mixing(text, parse) && ok(t.last) && ok(t.report) && t.Fits(text)
    ensures Agrees(Hear(LastBytes(t, text), parse), LastLines(t, text))
  {
    if t.k == |Full(t.last, text)| {
      OneLineIsHeard(t.last, t.k, text, parse, ok);
      assert Full(t.last, text)[..t.k] == Full(t.last, text);
    } else if t.k == 0 {
      OneLineIsHeard(t.report, t.j, text, parse, ok);
      assert LastBytes(t, text) == Full(t.report, text)[..t.j];
    } else if t.j == 0 {
      OneLineIsHeard(t.last, t.k, text, parse, ok);
      assert LastBytes(t, text) == Full(t.last, text)[..t.k];
    } else {
      CutOfLine(Encode(text(t.last)), t.k);
      MixedIsUnheard(t.last, t.k, t.report, t.j, text, parse, ok);
    }
  }

  lemma TalkIsHeard(t: Talk, text: Texts, parse: Parser, ok: ChildNotice -> bool)
    requires Codec(text, parse, ok) && Mixing(text, parse) && ok(t.last) && ok(t.report) && t.Fits(text)
    requires forall i :: 0 <= i < |t.ns| ==> ok(t.ns[i])
    ensures Agrees(Hear(BytesSent(t, text), parse), LinesSent(t, text))
  {
    LastIsHeard(t, text, parse, ok);
    AgreesAfter(t.ns, LastBytes(t, text), LastLines(t, text), text, parse, ok);
  }

  // ---------------------------------------------------------------- a report on an open line

  lemma {:induction false} DecodeAppend(p: string, b: seq<byte>)
    ensures Decode(Encode(p) + b) == if Decode(b).None? then None else Some(p + Decode(b).value)
  {
    if p == "" {
      assert Encode(p) + b == b;
      assert Decode(b).Some? ==> p + Decode(b).value == Decode(b).value;
    } else {
      DecodeAppend(p[1..], b);
      DecodeChar(p[0], Encode(p[1..]) + b);
      Regrouped(EncodeChar(p[0]), Encode(p[1..]), b);
      assert Decode(b).Some? ==> [p[0]] + (p[1..] + Decode(b).value) == p + Decode(b).value;
    }
  }

  /** A character that is cut and followed by one of ASCII is no text. */
  lemma {:induction false} CutThenAscii(s: string, k: nat, b: seq<byte>)
    requires k <= |Encode(s)| && !Between(s, k) && b != [] && b[0] < 0x80
    ensures Decode(Encode(s)[..k] + b) == None
  {
    var e, later := EncodeChar(s[0]), Encode(s[1..]);
    if k < |e| {
      CutCharThenAscii(s[0], k, b);
      assert Encode(s)[..k] == e[..k];
    } else {
      CutThenAscii(s[1..], k - |e|, b);
      DecodeChar(s[0], later[..k - |e|] + b);
      CutTwo(e, later, k, b);
    }
  }

  lemma CutTwo(e: seq<byte>, later: seq<byte>, k: nat, b: seq<byte>)
    requires |e| <= k <= |e| + |later|
    ensures (e + later)[..k] + b == e + (later[..k - |e|] + b)
  {
  }

  lemma CutCharThenAscii(c: char, k: nat, b: seq<byte>)
    requires 0 < k < |EncodeChar(c)| && b != [] && b[0] < 0x80
    ensures Decode(EncodeChar(c)[..k] + b) == None
  {
    var bs := EncodeChar(c)[..k] + b;
    CharReadsBack(c, EncodeChar(c));
    assert bs[0] == EncodeChar(c)[0] && bs[k] == b[0];
  }

  /** A report starts like an object with the key "kind". */
  lemma ReportStarts(report: ChildNotice)
    requires report.Failed?
    ensures var t := TextOf(report); |t| > 3 && t[0] == '{' && t[1] == QUOTE && t[2] == 'k'
  {
    var m := Fields(report);
    assert EscapeAll("kind") == Escape('k') + EscapeAll("kind"[1..]) && Escape('k') == "k";
    MembersText(m);
    assert TextOf(report)[..3] == "{" + [QUOTE] + "k";
  }

  lemma ReportIsSecond(report: ChildNotice, x: nat)
    requires report.Failed? && 0 < x <= |TextOf(report)|
    ensures Second(TextOf(report)[..x])
  {
    ReportStarts(report);
    var t := TextOf(report);
    if x < |t| {
      NoPrefixReads(Fields(report), x);
    } else {
      ReadWritten(Obj(Fields(report)), "");
      assert t[..x] == t + "";
    }
  }

  /** What is left of a part of a report's line when its end is trimmed. */
  lemma TrimmedReport(report: ChildNotice, i: nat)
    requires report.Failed? && 0 < i <= |TextOf(report)| + 1
    ensures Second(TrimEnd((TextOf(report) + "\n")[..i]))
  {
    var t := TextOf(report);
    ReportStarts(report);
    if i == |t| + 1 {
      ObjectIsTrimmed(Fields(report));
      assert (t + "\n")[..i] == t + "\n" && t[..|t|] == t;
      ReportIsSecond(report, |t|);
    } else {
      assert (t + "\n")[..i] == t[..i];
      TrimEndOfTake(t, i);
      TrimKeepsStart(t[..i]);
      ReportIsSecond(report, |TrimEnd(t[..i])|);
    }
  }

  lemma {:induction false} TrimKeepsStart(s: string)
    requires s != "" && !IsWhitespace(s[0])
    ensures TrimEnd(s) != ""
  {
    if IsWhitespace(s[|s| - 1]) { TrimKeepsStart(s[..|s| - 1]); }
  }

  lemma {:induction false} TrimAppended(p: string, q: string)
    requires TrimEnd(q) != ""
    ensures TrimEnd(p + q) == p + TrimEnd(q)
  {
    if IsWhitespace(q[|q| - 1]) {
      TrimAppended(p, q[..|q| - 1]);
      assert (p + q)[..|p + q| - 1] == p + q[..|q| - 1];
    }
  }

  /** A notice's text, cut or whole, with part of a report after it is no notice. */
  lemma MixedIsRefused(n: ChildNotice, i: nat, report: ChildNotice, x: nat)
    requires report.Failed? && 0 < i <= |TextOf(n)| && 0 < x <= |TextOf(report)| + 1
    ensures ReadNotice(TextOf(n)[..i] + (TextOf(report) + "\n")[..x]) == None
  {
    var p, q := TextOf(n)[..i], (TextOf(report) + "\n")[..x];
    TrimmedReport(report, x);
    TrimAppended(p, q);
    OverwrittenIsRefused(Fields(n), i, TrimEnd(q));
  }

  /** The whole open line, with the report on it, in bytes. */
  lemma MixedBytes(n: ChildNotice, k: nat, report: ChildNotice, j: nat)
    requires report.Failed? && 0 < k <= |Encode(TextOf(n))| && 0 < j <= |Full(report, TextOf)|
    ensures MixIsRefused(Encode(TextOf(n))[..k] + Full(report, TextOf)[..j], ReadNotice)
  {
    var s, b := TextOf(n), Full(report, TextOf)[..j];
    EncodeJoins(TextOf(report), "\n");
    assert Full(report, TextOf) == Encode(TextOf(report) + "\n");
    CutIsTextOrNone(s, k);
    CutIsTextOrNone(TextOf(report) + "\n", j);
    ReportByte(report);
    if !Between(s, k) {
      CutThenAscii(s, k, b);
    } else {
      var i := Complete(s, k);
      DecodeIsExact(Encode(s)[..k], s[..i]);
      DecodeAppend(s[..i], b);
      if Between(TextOf(report) + "\n", j) {
        MixedIsRefused(n, i, report, Complete(TextOf(report) + "\n", j));
      }
    }
  }

  lemma ReportByte(report: ChildNotice)
    requires report.Failed?
    ensures Full(report, TextOf) != [] && Full(report, TextOf)[0] < 0x80
  {
    ReportStarts(report);
    assert Encode(TextOf(report)) == EncodeChar('{') + Encode(TextOf(report)[1..]);
  }

  lemma NoticesMix()
    ensures Mixing(TextOf, ReadNotice)
  {
    forall n, k: nat, report: ChildNotice, j: nat |
      report.Failed? && 0 < k <= |Encode(TextOf(n))| && 0 < j <= |Full(report, TextOf)|
      ensures MixIsRefused(Encode(TextOf(n))[..k] + Full(report, TextOf)[..j], ReadNotice)
    {
      MixedBytes(n, k, report, j);
    }
  }

  // ---------------------------------------------------------------- the evidence channel

  /** However many bytes each call of a child gets out, the supervisor hears exactly the notices
      that the protocol's lines hold up to a garbled one, and complains iff one is garbled. */
  lemma LinesAreHeard(t: Talk)
    requires AllTyped(t.ns) && Typed(t.last) && t.Fits(TextOf)
    ensures Agrees(Hear(BytesSent(t, TextOf), ReadNotice), LinesSent(t, TextOf))
  {
    NoticesAreCodec();
    NoticesMix();
    TalkIsHeard(t, TextOf, ReadNotice, Typed);
  }
}
