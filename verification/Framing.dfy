/** The evidence channel: notices as lines of JSON (src/process.rs). */
module Framing {
  import opened Decimal
  import opened Json
  import opened Lines
  import opened Namespaces
  import opened Notices
  import opened Options
  import opened Text
  import opened Utf8

  // ---------------------------------------------------------------- notices as JSON

  predicate FitsI32(n: int) { -0x8000_0000 <= n < 0x8000_0000 }

  /** The notices that the type ChildNotice has: a process identifier is an i32. */
  predicate Typed(n: ChildNotice) {
    (n.NamespaceReady? || n.ProcessStart?) ==> FitsI32(n.namespacePid)
  }

  function IdsToJson(ids: NamespaceIds): Json {
    Obj(Member("user", Str(ids.user), Member("pid", Str(ids.pid), Member("uts", Str(ids.uts),
        Member("ipc", Str(ids.ipc), Member("mnt", Str(ids.mnt), Member("net", Str(ids.net), End)))))))
  }

  /** An internally tagged enum: the tag comes first, then the fields in order. */
  function Fields(n: ChildNotice): Members {
    match n
    case NamespaceReady(ids, pid) =>
      Member("kind", Str("namespace_ready"), Member("ids", IdsToJson(ids), Member("namespace_pid", Num(pid), End)))
    case IsolationReady =>
      Member("kind", Str("isolation_ready"), End)
    case ProcessStart(pid) =>
      Member("kind", Str("process_start"), Member("namespace_pid", Num(pid), End))
    case Failed(error) =>
      Member("kind", Str("failed"), Member("error", Str(error), End))
  }

  function Find(m: Members, key: string): Option<Json> {
    match m
    case End => None
    case Member(k, value, rest) => if k == key then Some(value) else Find(rest, key)
  }

  function FindText(m: Members, key: string): Option<string> {
    match Find(m, key)
    case Some(Str(text)) => Some(text)
    case _ => None
  }

  function FindI32(m: Members, key: string): Option<int> {
    match Find(m, key)
    case Some(Num(n)) => if FitsI32(n) then Some(n) else None
    case _ => None
  }

  function ReadIds(m: Members): Option<NamespaceIds> {
    var user, pid, uts := FindText(m, "user"), FindText(m, "pid"), FindText(m, "uts");
    var ipc, mnt, net := FindText(m, "ipc"), FindText(m, "mnt"), FindText(m, "net");
    if user.Some? && pid.Some? && uts.Some? && ipc.Some? && mnt.Some? && net.Some?
    then Some(NamespaceIds(user.value, pid.value, uts.value, ipc.value, mnt.value, net.value))
    else None
  }

  function FindIds(m: Members): Option<NamespaceIds> {
    match Find(m, "ids")
    case Some(Obj(members)) => ReadIds(members)
    case _ => None
  }

  /** The fields may come in any order, and unknown ones are ignored. */
  function ReadFields(m: Members): Option<ChildNotice> {
    var kind, pid := FindText(m, "kind"), FindI32(m, "namespace_pid");
    if kind == Some("namespace_ready") then
      var ids := FindIds(m);
      if ids.Some? && pid.Some? then Some(NamespaceReady(ids.value, pid.value)) else None
    else if kind == Some("isolation_ready") then Some(IsolationReady)
    else if kind == Some("process_start") then
      if pid.Some? then Some(ProcessStart(pid.value)) else None
    else if kind == Some("failed") then
      var error := FindText(m, "error");
      if error.Some? then Some(Failed(error.value)) else None
    else None
  }

  lemma IdsReadBack(ids: NamespaceIds)
    ensures ReadIds(IdsToJson(ids).members) == Some(ids)
  {
    var net := Member("net", Str(ids.net), End);
    var mnt := Member("mnt", Str(ids.mnt), net);
    var ipc := Member("ipc", Str(ids.ipc), mnt);
    var uts := Member("uts", Str(ids.uts), ipc);
    var pid := Member("pid", Str(ids.pid), uts);
    var all := IdsToJson(ids).members;
    assert Find(all, "user") == Some(Str(ids.user)) && Find(all, "pid") == Find(pid, "pid");
    assert Find(all, "uts") == Find(uts, "uts");
    assert Find(all, "ipc") == Find(uts, "ipc") == Find(ipc, "ipc");
    assert Find(all, "mnt") == Find(uts, "mnt") == Find(mnt, "mnt");
    assert Find(all, "net") == Find(uts, "net") == Find(mnt, "net") == Find(net, "net");
  }

  lemma NamespaceReadsBack(ids: NamespaceIds, pid: int)
    requires FitsI32(pid)
    ensures ReadFields(Fields(NamespaceReady(ids, pid))) == Some(NamespaceReady(ids, pid))
  {
    var last := Member("namespace_pid", Num(pid), End);
    var all := Fields(NamespaceReady(ids, pid));
    assert Find(all, "namespace_pid") == Find(last, "namespace_pid");
    assert Find(all, "ids") == Some(IdsToJson(ids));
    IdsReadBack(ids);
  }

  lemma FieldsReadBack(n: ChildNotice)
    requires Typed(n)
    ensures ReadFields(Fields(n)) == Some(n)
  {
    match n
    case NamespaceReady(ids, pid) => NamespaceReadsBack(ids, pid);
    case IsolationReady => assert Find(Fields(n), "kind") == Some(Str("isolation_ready"));
    case ProcessStart(pid) => assert Find(Fields(n), "namespace_pid") == Some(Num(pid));
    case Failed(error) => assert Find(Fields(n), "error") == Some(Str(error));
  }

  // ---------------------------------------------------------------- notices as lines

  function TextOf(n: ChildNotice): string { Write(Obj(Fields(n))) }

  /** serde_json::from_str of a line without its trailing whitespace. */
  function ReadNotice(line: string): Option<ChildNotice> {
    match Read(TrimEnd(line))
    case Good(Obj(members), rest) => if SkipBlanks(rest) == "" then ReadFields(members) else None
    case _ => None
  }

  predicate Plain(s: string) { forall i :: 0 <= i < |s| ==> !MustEscape(s[i]) }

  lemma {:induction false} PlainIsItself(s: string)
    requires Plain(s)
    ensures EscapeAll(s) == s
  {
    if s != "" {
      PlainIsItself(s[1..]);
      assert [s[0]] + s[1..] == s;
    }
  }

  lemma LastMember(key: string, value: Json)
    requires Plain(key)
    ensures WriteMembers(Member(key, value, End)) == "\"" + key + "\":" + Write(value) + "}"
  {
    PlainIsItself(key);
  }

  lemma MemberBefore(key: string, value: Json, rest: Members)
    requires Plain(key) && rest.Member?
    ensures WriteMembers(Member(key, value, rest)) == "\"" + key + "\":" + Write(value) + "," + WriteMembers(rest)
  {
    PlainIsItself(key);
  }

  lemma TagText(tag: string)
    requires Plain(tag)
    ensures Write(Str(tag)) == "\"" + tag + "\""
  {
    PlainIsItself(tag);
  }

  lemma Regroup(a: string, b: string, q: string, t: string, c: string, r: string)
    ensures a + (b + (q + t + q) + c + r) == (a + b + q) + t + (q + c) + r
  {
    assert b + (q + t + q) + c + r == b + (q + (t + (q + (c + r))));
    assert (a + b + q) + t + (q + c) + r == a + (b + (q + (t + (q + (c + r)))));
  }

  /** A notice as serde_json writes it: the tag, and then a field. */
  lemma TaggedText(tag: string, key: string, value: Json)
    requires Plain(tag) && Plain(key)
    ensures Write(Obj(Member("kind", Str(tag), Member(key, value, End)))) ==
            "{\"kind\":\"" + tag + "\"," + ("\"" + key + "\":" + Write(value) + "}")
  {
    TagText(tag);
    LastMember(key, value);
    MemberBefore("kind", Str(tag), Member(key, value, End));
    assert "\"" + "kind" + "\":" == "\"kind\":";
    Regroup("{", "\"kind\":", "\"", tag, ",", "\"" + key + "\":" + Write(value) + "}");
    assert "{" + "\"kind\":" + "\"" == "{\"kind\":\"" && "\"" + "," == "\",";
  }

  lemma UnitText(tag: string)
    requires Plain(tag)
    ensures Write(Obj(Member("kind", Str(tag), End))) == "{\"kind\":\"" + tag + "\"" + "}"
  {
    TagText(tag);
    LastMember("kind", Str(tag));
    assert "\"" + "kind" + "\":" == "\"kind\":";
    Regroup("{", "\"kind\":", "\"", tag, "", "}");
    assert "{" + "\"kind\":" + "\"" == "{\"kind\":\"" && "\"" + "" == "\"";
    assert "\"kind\":" + ("\"" + tag + "\"") + "" == "\"kind\":" + ("\"" + tag + "\"");
  }

  lemma TagsArePlain()
    ensures Plain("isolation_ready") && Plain("process_start") && Plain("failed")
    ensures Plain("namespace_pid") && Plain("error")
  {
  }

  /** The lines as serde_json writes them, tag first, without the line break. */
  lemma IsolationText()
    ensures TextOf(IsolationReady) == "{\"kind\":\"" + "isolation_ready" + "\"" + "}"
  {
    TagsArePlain();
    UnitText("isolation_ready");
  }

  lemma StartText(pid: nat)
    ensures TextOf(ProcessStart(pid)) ==
            "{\"kind\":\"" + "process_start" + "\"," + ("\"" + "namespace_pid" + "\":" + Digits(pid) + "}")
  {
    TagsArePlain();
    TaggedText("process_start", "namespace_pid", Num(pid));
  }

  lemma FailureText(error: string)
    ensures TextOf(Failed(error)) ==
            "{\"kind\":\"" + "failed" + "\"," + ("\"" + "error" + "\":" + ("\"" + EscapeAll(error) + "\"") + "}")
  {
    TagsArePlain();
    TaggedText("failed", "error", Str(error));
  }

  // ---------------------------------------------------------------- one line

  /** Written JSON has no control character, so no newline. */
  predicate Printable(s: string) {
    forall i :: 0 <= i < |s| ==> s[i] as int >= 0x20
  }

  lemma {:induction false} EscapedIsPrintable(s: string)
    ensures Printable(EscapeAll(s))
  {
    if s != "" { EscapedIsPrintable(s[1..]); }
  }

  lemma {:induction false} WrittenIsPrintable(j: Json)
    ensures Printable(Write(j))
    decreases j
  {
    match j
    case Str(text) => EscapedIsPrintable(text);
    case Num(n) =>
      var d := Digits(if n < 0 then -n else n);
      assert forall i :: 0 <= i < |d| ==> IsDigit(d[i]);
    case Obj(members) => MembersArePrintable(members);
  }

  lemma {:induction false} MembersArePrintable(m: Members)
    ensures Printable(WriteMembers(m))
    decreases m
  {
    if m.Member? {
      EscapedIsPrintable(m.key);
      WrittenIsPrintable(m.value);
      MembersArePrintable(m.rest);
    }
  }

  lemma {:induction false} WrittenMembersEnd(m: Members)
    ensures WriteMembers(m) != "" && WriteMembers(m)[|WriteMembers(m)| - 1] == '}'
    decreases m
  {
    if m.Member? { WrittenMembersEnd(m.rest); }
  }

  lemma ObjectEnds(m: Members)
    ensures var text := Write(Obj(m));
            text != "" && text[0] == '{' && text[|text| - 1] == '}' && Printable(text)
  {
    WrittenMembersEnd(m);
    WrittenIsPrintable(Obj(m));
  }

  /** An object ends in a brace, so trimming takes the line break and no more. */
  lemma ObjectIsTrimmed(m: Members)
    ensures TrimEnd(Write(Obj(m))) == TrimEnd(Write(Obj(m)) + "\n") == Write(Obj(m))
  {
    ObjectEnds(m);
    BreakIsTrimmed(Write(Obj(m)));
  }

  lemma TextReadsBack(line: string, n: ChildNotice)
    requires Typed(n) && TrimEnd(line) == TextOf(n)
    ensures ReadNotice(line) == Some(n)
  {
    ReadWritten(Obj(Fields(n)), "");
    assert TextOf(n) + "" == TextOf(n);
    FieldsReadBack(n);
  }

  /** A notice survives the trip, with its newline or, as the last line, without. */
  lemma NoticeReadsBack(n: ChildNotice)
    requires Typed(n)
    ensures ReadNotice(TextOf(n)) == ReadNotice(TextOf(n) + "\n") == Some(n)
  {
    ObjectIsTrimmed(Fields(n));
    TextReadsBack(TextOf(n), n);
    TextReadsBack(TextOf(n) + "\n", n);
  }

  lemma CutTextIsBad(m: Members, j: nat, cut: string)
    requires j < |Write(Obj(m))| && TrimEnd(cut) == Write(Obj(m))[..j]
    ensures ReadNotice(cut) == None
  {
    NoPrefixReads(m, j);
  }

  /** A line that is cut short is never taken for a notice. */
  lemma CutLineIsRefused(n: ChildNotice, k: nat)
    requires k < |TextOf(n)|
    ensures ReadNotice(TextOf(n)[..k]) == None
  {
    TrimEndOfTake(TextOf(n), k);
    CutTextIsBad(Fields(n), |TrimEnd(TextOf(n)[..k])|, TextOf(n)[..k]);
  }

  // ---------------------------------------------------------------- the channel

  lemma NoticeIsOneLine(n: ChildNotice)
    ensures OneLine(TextOf(n))
  {
    ObjectEnds(Fields(n));
  }

  /** Notices, whatever they say, are lines that read back and are refused when cut. */
  lemma NoticesAreCodec()
    ensures Codec(TextOf, ReadNotice, Typed)
  {
    forall n | Typed(n)
      ensures OneLine(TextOf(n)) && ReadNotice(TextOf(n)) == ReadNotice(TextOf(n) + "\n") == Some(n)
      ensures forall k :: 0 < k < |TextOf(n)| ==> ReadNotice(TextOf(n)[..k]) == None
    {
      NoticeIsOneLine(n);
      NoticeReadsBack(n);
      forall k | 0 < k < |TextOf(n)| ensures ReadNotice(TextOf(n)[..k]) == None {
        CutLineIsRefused(n, k);
      }
    }
  }

  predicate AllTyped(ns: seq<ChildNotice>) {
    forall i :: 0 <= i < |ns| ==> Typed(ns[i])
  }

  /** Whatever the notices say, the supervisor hears them all, in order. */
  lemma NoticesAreHeard(ns: seq<ChildNotice>)
    requires AllTyped(ns)
    ensures Hear(Stream(ns, TextOf), ReadNotice) == Heard(ns, Intact)
  {
    NoticesAreCodec();
    StreamIsHeard(ns, TextOf, ReadNotice, Typed);
  }

  /** Cut the stream after any number of bytes: the supervisor hears the notices whose text is
      complete, a prefix of what was sent, and the loop ends well iff the cut is inside no
      notice. Inside one, read_line fails if the cut is inside a character, and else the
      parser refuses what is left of the line. */
  lemma CutNoticesAreHeard(ns: seq<ChildNotice>, k: nat)
    requires AllTyped(ns) && k <= |Stream(ns, TextOf)|
    ensures IsCut(Hear(Stream(ns, TextOf)[..k], ReadNotice), ns, k, TextOf)
  {
    NoticesAreCodec();
    CutIsHeardExactly(ns, k, TextOf, ReadNotice, Typed);
  }
}
