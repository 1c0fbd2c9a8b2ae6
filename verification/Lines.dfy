/** Messages sent as lines of UTF-8 text, over any encoding of one message (src/process.rs). */
module Lines {
  import opened Options
  import opened Utf8

  const BREAK: byte := 0x0A

  predicate OneLine(s: string) {
    s != "" && forall i :: 0 <= i < |s| ==> s[i] != '\n'
  }

  /** `parse` gets back what `text` wrote for each message that is `ok`, with or without
      the newline, and refuses it when it is cut short. */
  ghost predicate Codec<N(!new)>(text: N -> string, parse: string -> Option<N>, ok: N -> bool) {
    forall n :: ok(n) ==>
      && OneLine(text(n))
      && parse(text(n)) == parse(text(n) + "\n") == Some(n)
      && forall j :: 0 < j < |text(n)| ==> parse(text(n)[..j]) == None
  }

  /** The bytes that carry the messages. */
  function Stream<N>(ns: seq<N>, text: N -> string): seq<byte> {
    if ns == [] then [] else Encode(text(ns[0])) + [BREAK] + Stream(ns[1..], text)
  }

  /** The length of the first line, with its line break if it has one. */
  function LineLength(s: seq<byte>): (k: nat)
    ensures k <= |s| && (s != [] ==> k > 0)
  {
    if s == [] then 0 else if s[0] == BREAK then 1 else 1 + LineLength(s[1..])
  }

  /** How the reader's loop ends: at the end of the stream, at a line that is not text, which
      read_line reports, or at one that is no message. */
  datatype Ending = Intact | NotText | NotMessage

  datatype Heard<N> = Heard(messages: seq<N>, ending: Ending)
  {
    function After(n: N): Heard<N> { Heard([n] + messages, ending) }
  }

  function Hear<N>(s: seq<byte>, parse: string -> Option<N>): Heard<N>
    decreases |s|
  {
    if s == [] then Heard([], Intact)
    else
      var k := LineLength(s);
      match Decode(s[..k])
      case None => Heard([], NotText)
      case Some(line) =>
        match parse(line)
        case None => Heard([], NotMessage)
        case Some(n) => Hear(s[k..], parse).After(n)
  }

  /** The reader's loop. */
  method ReadLines<N>(stream: seq<byte>, parse: string -> Option<N>) returns (messages: seq<N>, ending: Ending)
    ensures Heard(messages, ending) == Hear(stream, parse)
  {
    var at := 0;
    messages, ending := [], Intact;
    while at < |stream|
      invariant 0 <= at <= |stream| && ending == Intact
      invariant var later := Hear(stream[at..], parse);
                Hear(stream, parse) == Heard(messages + later.messages, later.ending)
    {
      var rest := stream[at..];
      var k := LineLength(rest);
      assert messages + [] == messages;
      var line := Decode(rest[..k]);
      if line.None? { return messages, NotText; }
      var message := parse(line.value);
      if message.None? { return messages, NotMessage; }
      assert stream[at + k..] == rest[k..];
      ghost var later := Hear(rest[k..], parse).messages;
      assert messages + ([message.value] + later) == messages + [message.value] + later;
      messages := messages + [message.value];
      at := at + k;
    }
    assert messages + [] == messages;
  }

  // ---------------------------------------------------------------- one line

  predicate Unbroken(s: seq<byte>) {
    forall i :: 0 <= i < |s| ==> s[i] != BREAK
  }

  lemma {:induction false} LineLengthOf(s: seq<byte>, t: seq<byte>)
    requires Unbroken(s)
    ensures LineLength(s + [BREAK] + t) == |s| + 1 && LineLength(s) == |s|
  {
    if s == [] {
      assert s + [BREAK] + t == [BREAK] + t;
    } else {
      LineLengthOf(s[1..], t);
      assert (s + [BREAK] + t)[1..] == s[1..] + [BREAK] + t;
    }
  }

  lemma HearLine<N>(line: seq<byte>, t: seq<byte>, parse: string -> Option<N>)
    requires line != [] && LineLength(line + t) == |line| && Decode(line).Some? && parse(Decode(line).value).Some?
    ensures Hear(line + t, parse) == Hear(t, parse).After(parse(Decode(line).value).value)
  {
    assert (line + t)[..|line|] == line && (line + t)[|line|..] == t;
  }

  /** The last line, without a line break. */
  lemma HearLast<N>(line: seq<byte>, parse: string -> Option<N>)
    requires line != [] && Unbroken(line)
    ensures Hear(line, parse) ==
      if Decode(line).None? then Heard([], NotText)
      else if parse(Decode(line).value).None? then Heard([], NotMessage)
      else Heard([parse(Decode(line).value).value], Intact)
  {
    LineLengthOf(line, []);
    assert line[..|line|] == line && line[|line|..] == [];
  }

  lemma HearMessage<N(!new)>(n: N, t: seq<byte>, text: N -> string, parse: string -> Option<N>, ok: N -> bool)
    requires Codec(text, parse, ok) && ok(n)
    ensures Hear(Encode(text(n)) + [BREAK] + t, parse) == Hear(t, parse).After(n)
  {
    NoBreakInside(text(n));
    LineLengthOf(Encode(text(n)), t);
    EncodeJoins(text(n), "\n");
    EncodeReadsBack(text(n) + "\n");
    assert Encode("\n") == [BREAK];
    HearLine(Encode(text(n)) + [BREAK], t, parse);
  }

  // ---------------------------------------------------------------- the whole stream

  /** Whatever the messages say, the reader hears them all, in order. */
  lemma {:induction false} StreamIsHeard<N(!new)>(
    ns: seq<N>, text: N -> string, parse: string -> Option<N>, ok: N -> bool)
    requires Codec(text, parse, ok) && forall i :: 0 <= i < |ns| ==> ok(ns[i])
    ensures Hear(Stream(ns, text), parse) == Heard(ns, Intact)
  {
    if ns != [] {
      StreamIsHeard(ns[1..], text, parse, ok);
      HearMessage(ns[0], Stream(ns[1..], text), text, parse, ok);
      assert [ns[0]] + ns[1..] == ns;
    }
  }

  /** What the reader should make of the first `k` bytes of a stream: the messages whose text
      is complete, intact unless the cut is inside the next text. A cut inside one of its
      characters leaves a line that is not text, and one between two of them no message. */
  function Cut<N>(ns: seq<N>, text: N -> string, k: nat): Heard<N> {
    if ns == [] || k == 0 then Heard([], Intact)
    else
      var size := |Encode(text(ns[0]))|;
      if k < size then Heard([], if Between(text(ns[0]), k) then NotMessage else NotText)
      else if k == size then Heard([ns[0]], Intact)
      else Cut(ns[1..], text, k - size - 1).After(ns[0])
  }

  lemma CutInFirst<N(!new)>(
    n: N, t: seq<byte>, k: nat, text: N -> string, parse: string -> Option<N>, ok: N -> bool)
    requires Codec(text, parse, ok) && ok(n) && 0 < k <= |Encode(text(n))|
    ensures Hear((Encode(text(n)) + [BREAK] + t)[..k], parse)
            == if k == |Encode(text(n))| then Heard([n], Intact)
               else Heard([], if Between(text(n), k) then NotMessage else NotText)
  {
    var cut := Encode(text(n))[..k];
    assert (Encode(text(n)) + [BREAK] + t)[..k] == cut;
    NoBreakInside(text(n));
    HearLast(cut, parse);
    CutIsTextOrNone(text(n), k);
    if k == |Encode(text(n))| {
      EncodeReadsBack(text(n));
      assert cut == Encode(text(n));
    }
  }

  lemma CutLater<N(!new)>(
    n: N, t: seq<byte>, k: nat, text: N -> string, parse: string -> Option<N>, ok: N -> bool)
    requires Codec(text, parse, ok) && ok(n) && 0 <= k - |Encode(text(n))| - 1 <= |t|
    ensures Hear((Encode(text(n)) + [BREAK] + t)[..k], parse)
            == Hear(t[..k - |Encode(text(n))| - 1], parse).After(n)
  {
    var rest := t[..k - |Encode(text(n))| - 1];
    assert (Encode(text(n)) + [BREAK] + t)[..k] == Encode(text(n)) + [BREAK] + rest;
    HearMessage(n, rest, text, parse, ok);
  }

  /** Cut the stream after any number of bytes: the reader hears exactly what it should. */
  lemma {:induction false} CutStreamIsHeard<N(!new)>(
    ns: seq<N>, k: nat, text: N -> string, parse: string -> Option<N>, ok: N -> bool)
    requires Codec(text, parse, ok) && k <= |Stream(ns, text)| && forall i :: 0 <= i < |ns| ==> ok(ns[i])
    ensures Hear(Stream(ns, text)[..k], parse) == Cut(ns, text, k)
  {
    if ns != [] && k > 0 {
      var n, later := ns[0], Stream(ns[1..], text);
      if k <= |Encode(text(n))| {
        CutInFirst(n, later, k, text, parse, ok);
      } else {
        CutStreamIsHeard(ns[1..], k - |Encode(text(n))| - 1, text, parse, ok);
        CutLater(n, later, k, text, parse, ok);
      }
    }
  }

  /** `heard` is what is left of `ns` after `k` bytes: as many messages as have their whole
      text in them. The loop ends well iff the cut is at the end of the last of these, before
      its line break or after it, and so inside no message; it ends with a line that is not
      text iff the cut is inside a character of the next message. */
  ghost predicate IsCut<N>(heard: Heard<N>, ns: seq<N>, k: nat, text: N -> string) {
    var m, sent := |heard.messages|, |Stream(heard.messages, text)|;
    && heard.messages <= ns
    && (if m == 0 then 0 else sent - 1) <= k
    && (m < |ns| ==> k < sent + |Encode(text(ns[m]))|)
    && (heard.ending == Intact <==> k == sent || (m > 0 && k == sent - 1))
    && (heard.ending == NotText <==> m < |ns| && k > sent && !Between(text(ns[m]), k - sent))
  }

  lemma CutGrows<N>(n: N, heard: Heard<N>, ns: seq<N>, k: nat, text: N -> string)
    requires IsCut(heard, ns, k, text)
    ensures IsCut(heard.After(n), [n] + ns, k + |Encode(text(n))| + 1, text)
  {
    assert ([n] + heard.messages)[1..] == heard.messages;
  }

  lemma {:induction false} CutIsExact<N>(ns: seq<N>, k: nat, text: N -> string)
    requires k <= |Stream(ns, text)| && forall i :: 0 <= i < |ns| ==> text(ns[i]) != ""
    ensures IsCut(Cut(ns, text, k), ns, k, text)
  {
    if ns != [] && k > 0 && k > |Encode(text(ns[0]))| {
      var later := k - |Encode(text(ns[0]))| - 1;
      CutIsExact(ns[1..], later, text);
      CutGrows(ns[0], Cut(ns[1..], text, later), ns[1..], later, text);
      assert [ns[0]] + ns[1..] == ns;
    }
  }

  /** Wherever the stream is cut, the reader hears the messages that are complete. */
  lemma CutIsHeardExactly<N(!new)>(
    ns: seq<N>, k: nat, text: N -> string, parse: string -> Option<N>, ok: N -> bool)
    requires Codec(text, parse, ok) && k <= |Stream(ns, text)| && forall i :: 0 <= i < |ns| ==> ok(ns[i])
    ensures IsCut(Hear(Stream(ns, text)[..k], parse), ns, k, text)
  {
    CutStreamIsHeard(ns, k, text, parse, ok);
    CutIsExact(ns, k, text);
  }
}
