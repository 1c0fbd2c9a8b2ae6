/** The JSON that notices use: objects, strings and integers, written as compactly as
    serde_json writes them and read as RFC 8259 allows. */
module Json {
  import opened Decimal

  datatype Json = Str(text: string) | Num(n: int) | Obj(members: Members)
  datatype Members = End | Member(key: string, value: Json, rest: Members)

  datatype Parsed<T> = Good(value: T, rest: string) | Bad

  const QUOTE := '\"'
  const BACKSLASH := '\\'

  // ---------------------------------------------------------------- strings

  function HexDigit(n: nat): char
    requires n < 16
  {
    if n < 10 then '0' + n as char else 'a' + (n - 10) as char
  }

  function HexValue(c: char): int {
    if '0' <= c <= '9' then c as int - '0' as int
    else if 'a' <= c <= 'f' then c as int - 'a' as int + 10
    else if 'A' <= c <= 'F' then c as int - 'A' as int + 10
    else -1
  }

  /** Section 7 of RFC 8259: quotation mark, reverse solidus and control characters must be escaped. */
  predicate MustEscape(c: char) { c == QUOTE || c == BACKSLASH || c as int < 0x20 }

  /** The letter of a two-character escape, or a space if there is none. */
  function Letter(c: char): char {
    if c == QUOTE then QUOTE else if c == BACKSLASH then BACKSLASH
    else if c as int == 8 then 'b' else if c as int == 9 then 't' else if c as int == 10 then 'n'
    else if c as int == 12 then 'f' else if c as int == 13 then 'r' else ' '
  }

  function Escape(c: char): string {
    if !MustEscape(c) then [c]
    else if Letter(c) != ' ' then [BACKSLASH, Letter(c)]
    else [BACKSLASH, 'u', '0', '0', HexDigit(c as int / 16), HexDigit(c as int % 16)]
  }

  /** The escapes that section 7 of RFC 8259 names, and the six-character form of the rest. */
  lemma StandardEscapes()
    ensures Escape(QUOTE) == "\\\"" && Escape(BACKSLASH) == "\\\\"
    ensures Escape(8 as char) == "\\b" && Escape(9 as char) == "\\t" && Escape(10 as char) == "\\n"
    ensures Escape(12 as char) == "\\f" && Escape(13 as char) == "\\r"
    ensures Escape(0 as char) == "\\u0000" && Escape(0x1F as char) == "\\u001f" && Escape('/') == "/"
  {
  }

  function EscapeAll(s: string): string {
    if s == "" then "" else Escape(s[0]) + EscapeAll(s[1..])
  }

  /** What a two-character escape stands for; a space is no such escape. */
  function Unletter(c: char): char {
    if c == QUOTE || c == BACKSLASH || c == '/' then c
    else if c == 'b' then 8 as char else if c == 't' then 9 as char else if c == 'n' then 10 as char
    else if c == 'f' then 12 as char else if c == 'r' then 13 as char else ' '
  }

  /** The value of four hexadecimal digits, or -1. */
  function HexAt(s: string): int
    requires |s| >= 4
  {
    var a, b, c, d := HexValue(s[0]), HexValue(s[1]), HexValue(s[2]), HexValue(s[3]);
    if a < 0 || b < 0 || c < 0 || d < 0 then -1 else 4096 * a + 256 * b + 16 * c + d
  }

  /** The first character of a string body and what follows it, unescaped. */
  function ReadChar(s: string): (p: Parsed<char>)
    ensures p.Good? ==> |p.rest| < |s|
  {
    if s == "" || s[0] == QUOTE || s[0] as int < 0x20 then Bad
    else if s[0] != BACKSLASH then Good(s[0], s[1..])
    else if |s| >= 2 && Unletter(s[1]) != ' ' then Good(Unletter(s[1]), s[2..])
    else if |s| >= 6 && s[1] == 'u' then
      var n := HexAt(s[2..]);
      if n < 0 || 0xD800 <= n < 0xE000 then Bad else Good(n as char, s[6..])
    else Bad
  }

  /** A string body up to and including its closing quotation mark. */
  function ReadChars(s: string): (p: Parsed<string>)
    ensures p.Good? ==> |p.rest| < |s|
    decreases |s|
  {
    if s != "" && s[0] == QUOTE then Good("", s[1..])
    else match ReadChar(s)
      case Bad => Bad
      case Good(c, rest) =>
        match ReadChars(rest)
        case Bad => Bad
        case Good(cs, rest') => Good([c] + cs, rest')
  }

  lemma ReadEscaped(c: char, t: string)
    ensures ReadChar(Escape(c) + t) == Good(c, t)
    ensures (Escape(c) + t)[0] != QUOTE
  {
    var s := Escape(c) + t;
    if !MustEscape(c) {
      assert s[1..] == t;
    } else if Letter(c) != ' ' {
      assert s[0] == BACKSLASH && s[1] == Letter(c) && s[2..] == t;
    } else {
      var n := c as int;
      assert s[0] == BACKSLASH && s[1] == 'u' && s[6..] == t;
      assert s[2..][0] == '0' && s[2..][1] == '0' && s[2..][2] == HexDigit(n / 16) && s[2..][3] == HexDigit(n % 16);
      assert HexValue(HexDigit(n / 16)) == n / 16 && HexValue(HexDigit(n % 16)) == n % 16;
    }
  }

  lemma {:induction false} ReadEscapedAll(s: string, t: string)
    ensures ReadChars(EscapeAll(s) + [QUOTE] + t) == Good(s, t)
  {
    if s == "" {
      assert EscapeAll(s) + [QUOTE] + t == [QUOTE] + t;
    } else {
      var u := EscapeAll(s[1..]) + [QUOTE] + t;
      ReadEscapedAll(s[1..], t);
      ReadEscaped(s[0], u);
      assert EscapeAll(s) + [QUOTE] + t == Escape(s[0]) + u;
      assert [s[0]] + s[1..] == s;
    }
  }

  lemma ReadCharStable(s: string, t: string)
    requires ReadChar(s).Good?
    ensures ReadChar(s + t) == Good(ReadChar(s).value, ReadChar(s).rest + t)
  {
    if s[0] != BACKSLASH {
      assert (s + t)[1..] == s[1..] + t;
    } else if Unletter(s[1]) != ' ' {
      assert (s + t)[2..] == s[2..] + t;
    } else {
      assert (s + t)[6..] == s[6..] + t;
      assert (s + t)[2..][..4] == s[2..][..4];
    }
  }

  lemma {:induction false} ReadCharsStable(s: string, t: string)
    requires ReadChars(s).Good?
    ensures ReadChars(s + t) == Good(ReadChars(s).value, ReadChars(s).rest + t)
    decreases |s|
  {
    if s[0] == QUOTE {
      assert (s + t)[1..] == s[1..] + t;
    } else {
      ReadCharStable(s, t);
      ReadCharsStable(ReadChar(s).rest, t);
    }
  }

  // ---------------------------------------------------------------- integers

  function WriteInt(n: int): string { if n < 0 then "-" + Digits(-n) else Digits(n) }

  /** No leading zeros, at least one digit. */
  function ReadNat(s: string): (p: Parsed<int>)
    ensures p.Good? ==> |p.rest| < |s| && p.value >= 0
  {
    var k := DigitCount(s);
    if k == 0 || (k > 1 && s[0] == '0') then Bad else Good(ValueOf(s[..k]), s[k..])
  }

  function ReadInt(s: string): (p: Parsed<int>)
    ensures p.Good? ==> |p.rest| < |s|
  {
    if s != "" && s[0] == '-' then
      match ReadNat(s[1..])
      case Bad => Bad
      case Good(n, rest) => if n == 0 then Bad else Good(-n, rest)
    else ReadNat(s)
  }

  lemma ReadWrittenNat(n: nat, t: string)
    requires t == "" || !IsDigit(t[0])
    ensures ReadNat(Digits(n) + t) == Good(n, t)
  {
    var d := Digits(n);
    DigitsValue(n);
    DigitCountOf(d, t);
    assert (d + t)[..|d|] == d && (d + t)[|d|..] == t && (d + t)[0] == d[0];
  }

  lemma ReadNegative(d: string, n: int, t: string)
    requires ReadNat(d + t) == Good(n, t) && n > 0
    ensures ReadInt("-" + d + t) == Good(-n, t)
  {
    assert ("-" + d + t)[1..] == d + t;
  }

  lemma ReadWrittenInt(n: int, t: string)
    requires t == "" || !IsDigit(t[0])
    ensures ReadInt(WriteInt(n) + t) == Good(n, t)
  {
    if n < 0 {
      ReadWrittenNat(-n, t);
      ReadNegative(Digits(-n), -n, t);
    } else {
      ReadWrittenNat(n, t);
      assert (WriteInt(n) + t)[0] == Digits(n)[0];
    }
  }

  lemma ReadNatStable(s: string, t: string)
    requires ReadNat(s).Good? && ReadNat(s).rest != ""
    ensures ReadNat(s + t) == Good(ReadNat(s).value, ReadNat(s).rest + t)
  {
    var k := DigitCount(s);
    assert s + t == s[..k] + (s[k..] + t);
    DigitCountOf(s[..k], s[k..] + t);
    assert (s + t)[..k] == s[..k] && (s + t)[k..] == s[k..] + t;
  }

  lemma ReadIntStable(s: string, t: string)
    requires ReadInt(s).Good? && ReadInt(s).rest != ""
    ensures ReadInt(s + t) == Good(ReadInt(s).value, ReadInt(s).rest + t)
  {
    if s[0] == '-' {
      ReadNatStable(s[1..], t);
      assert (s + t)[1..] == s[1..] + t;
    } else {
      ReadNatStable(s, t);
    }
  }

  // ---------------------------------------------------------------- values

  function Write(j: Json): string
    decreases j
  {
    match j
    case Str(text) => [QUOTE] + EscapeAll(text) + [QUOTE]
    case Num(n) => WriteInt(n)
    case Obj(members) => "{" + WriteMembers(members)
  }

  /** The members that are left to write, and the closing brace. */
  function WriteMembers(m: Members): string
    decreases m
  {
    match m
    case End => "}"
    case Member(key, value, rest) =>
      [QUOTE] + (EscapeAll(key) + [QUOTE]
      + (":" + (Write(value) + ((if rest.End? then "" else ",") + WriteMembers(rest)))))
  }

  predicate IsBlank(c: char) { c == ' ' || c == '\t' || c == '\n' || c == '\r' }

  function SkipBlanks(s: string): (r: string)
    ensures |r| <= |s| && (r == "" || !IsBlank(r[0]))
  {
    if s != "" && IsBlank(s[0]) then SkipBlanks(s[1..]) else s
  }

  /** What follows `c`, with blanks allowed before it. */
  function Expect(c: char, s: string): (p: Parsed<()>)
    ensures p.Good? ==> |p.rest| < |s|
  {
    var r := SkipBlanks(s);
    if r != "" && r[0] == c then Good((), r[1..]) else Bad
  }

  function Read(s: string): (p: Parsed<Json>)
    ensures p.Good? ==> |p.rest| < |s|
    decreases |s|, 1
  {
    var r := SkipBlanks(s);
    if r == "" then Bad
    else if r[0] == QUOTE then
      match ReadChars(r[1..])
      case Bad => Bad
      case Good(text, rest) => Good(Str(text), rest)
    else if r[0] == '{' then
      match Expect('}', r[1..])
      case Good(_, rest) => Good(Obj(End), rest)
      case Bad =>
        match ReadMembers(r[1..])
        case Bad => Bad
        case Good(members, rest) => Good(Obj(members), rest)
    else
      match ReadInt(r)
      case Bad => Bad
      case Good(n, rest) => Good(Num(n), rest)
  }

  /** One member or more, and the closing brace. */
  function ReadMembers(s: string): (p: Parsed<Members>)
    ensures p.Good? ==> |p.rest| < |s|
    decreases |s|, 0
  {
    match Expect(QUOTE, s)
    case Bad => Bad
    case Good(_, s1) =>
      match ReadChars(s1)
      case Bad => Bad
      case Good(key, s2) =>
        match Expect(':', s2)
        case Bad => Bad
        case Good(_, s3) =>
          match Read(s3)
          case Bad => Bad
          case Good(value, s4) =>
            match Expect('}', s4)
            case Good(_, s5) => Good(Member(key, value, End), s5)
            case Bad =>
              match Expect(',', s4)
              case Bad => Bad
              case Good(_, s5) =>
                match ReadMembers(s5)
                case Bad => Bad
                case Good(rest, s6) => Good(Member(key, value, rest), s6)
  }

  // ---------------------------------------------------------------- round trip

  lemma ExpectHere(c: char, t: string)
    requires !IsBlank(c)
    ensures Expect(c, [c] + t) == Good((), t)
    ensures forall d :: d != c ==> Expect(d, [c] + t) == Bad
  {
    assert SkipBlanks([c] + t) == [c] + t;
    assert ([c] + t)[1..] == t;
  }

  lemma WriteStarts(j: Json)
    ensures Write(j) != "" && !IsBlank(Write(j)[0])
  {
    match j
    case Num(n) => assert IsDigit(Digits(if n < 0 then -n else n)[0]);
    case _ =>
  }

  lemma ReadWrittenText(text: string, t: string)
    ensures Read(Write(Str(text)) + t) == Good(Str(text), t)
  {
    ReadEscapedAll(text, t);
    assert Write(Str(text)) + t == [QUOTE] + (EscapeAll(text) + [QUOTE] + t);
  }

  lemma ReadWrittenNumber(n: int, t: string)
    requires t == "" || !IsDigit(t[0])
    ensures Read(Write(Num(n)) + t) == Good(Num(n), t)
  {
    WriteStarts(Num(n));
    assert SkipBlanks(WriteInt(n) + t) == WriteInt(n) + t;
    ReadWrittenInt(n, t);
  }

  lemma ReadWrittenObject(m: Members, t: string)
    requires m.Member? ==> ReadMembers(WriteMembers(m) + t) == Good(m, t) && Expect('}', WriteMembers(m) + t) == Bad
    ensures Read(Write(Obj(m)) + t) == Good(Obj(m), t)
  {
    assert Write(Obj(m)) + t == "{" + (WriteMembers(m) + t);
    if m.End? { ExpectHere('}', t); }
  }

  /** Reading what was written gives it back, whatever follows, unless a digit follows a number. */
  lemma {:induction false} ReadWritten(j: Json, t: string)
    requires j.Num? ==> t == "" || !IsDigit(t[0])
    ensures Read(Write(j) + t) == Good(j, t)
    decreases j
  {
    match j
    case Str(text) => ReadWrittenText(text, t);
    case Num(n) => ReadWrittenNumber(n, t);
    case Obj(members) =>
      if members.Member? { ReadWrittenMembers(members, t); }
      ReadWrittenObject(members, t);
  }

  /** What ReadMembers makes of what follows a first member. */
  function Continue(key: string, value: Json, s: string): Parsed<Members> {
    if Expect('}', s).Good? then Good(Member(key, value, End), Expect('}', s).rest)
    else if Expect(',', s).Bad? then Bad
    else
      match ReadMembers(Expect(',', s).rest)
      case Bad => Bad
      case Good(rest, s') => Good(Member(key, value, rest), s')
  }

  lemma ReadWrittenMember(key: string, value: Json, s: string)
    requires Read(Write(value) + s) == Good(value, s)
    ensures var whole := [QUOTE] + (EscapeAll(key) + [QUOTE] + (":" + (Write(value) + s)));
            Expect('}', whole) == Bad && ReadMembers(whole) == Continue(key, value, s)
  {
    var s3 := Write(value) + s;
    ExpectHere(':', s3);
    ReadEscapedAll(key, ":" + s3);
    ExpectHere(QUOTE, EscapeAll(key) + [QUOTE] + (":" + s3));
  }

  lemma {:induction false} ReadWrittenMembers(m: Members, t: string)
    requires m.Member?
    ensures ReadMembers(WriteMembers(m) + t) == Good(m, t)
    ensures Expect('}', WriteMembers(m) + t) == Bad
    decreases m
  {
    var s := (if m.rest.End? then "" else ",") + (WriteMembers(m.rest) + t);
    if m.rest.Member? { ReadWrittenMembers(m.rest, t); }
    ContinueWritten(m, t);
    ReadWritten(m.value, s);
    ReadWrittenMember(m.key, m.value, s);
    WrittenMembersSplit(m, t);
  }

  lemma Regroup(a: string, b: string, c: string)
    ensures a + b + c == a + (b + c)
  {
  }

  lemma WrittenMembersSplit(m: Members, t: string)
    requires m.Member?
    ensures var s := (if m.rest.End? then "" else ",") + (WriteMembers(m.rest) + t);
            WriteMembers(m) + t == [QUOTE] + (EscapeAll(m.key) + [QUOTE] + (":" + (Write(m.value) + s)))
  {
    var comma := if m.rest.End? then "" else ",";
    var s1 := comma + WriteMembers(m.rest);
    var s2 := Write(m.value) + s1;
    var s3 := ":" + s2;
    Regroup(comma, WriteMembers(m.rest), t);
    Regroup(Write(m.value), s1, t);
    Regroup(":", s2, t);
    Regroup(EscapeAll(m.key) + [QUOTE], s3, t);
    Regroup([QUOTE], EscapeAll(m.key) + [QUOTE] + s3, t);
  }

  lemma ContinueWritten(m: Members, t: string)
    requires m.Member? && (m.rest.Member? ==> ReadMembers(WriteMembers(m.rest) + t) == Good(m.rest, t))
    ensures Continue(m.key, m.value, (if m.rest.End? then "" else ",") + (WriteMembers(m.rest) + t)) == Good(m, t)
  {
    if m.rest.End? {
      assert "" + ("}" + t) == "}" + t;
      ExpectHere('}', t);
    } else {
      ExpectHere(',', WriteMembers(m.rest) + t);
    }
  }

  // ---------------------------------------------------------------- more input

  lemma {:induction false} SkipBlanksStable(s: string, t: string)
    requires SkipBlanks(s) != ""
    ensures SkipBlanks(s + t) == SkipBlanks(s) + t
  {
    if IsBlank(s[0]) {
      SkipBlanksStable(s[1..], t);
      assert (s + t)[1..] == s[1..] + t;
    }
  }

  lemma ExpectStable(c: char, s: string, t: string)
    requires SkipBlanks(s) != ""
    ensures Expect(c, s + t) == if Expect(c, s).Good? then Good((), Expect(c, s).rest + t) else Bad
  {
    SkipBlanksStable(s, t);
    assert (SkipBlanks(s) + t)[1..] == SkipBlanks(s)[1..] + t;
  }

  /** More input does not change what was read, unless the input ended in a number. */
  lemma {:induction false} ReadStable(s: string, t: string)
    requires Read(s).Good? && (Read(s).value.Num? ==> Read(s).rest != "")
    ensures Read(s + t) == Good(Read(s).value, Read(s).rest + t)
    decreases |s|, 1
  {
    var r := SkipBlanks(s);
    SkipBlanksStable(s, t);
    assert (r + t)[1..] == r[1..] + t;
    if r[0] == QUOTE {
      ReadCharsStable(r[1..], t);
    } else if r[0] == '{' {
      ExpectStable('}', r[1..], t);
      if Expect('}', r[1..]).Bad? { ReadMembersStable(r[1..], t); }
    } else {
      ReadIntStable(r, t);
    }
  }

  lemma {:induction false} ReadMembersStable(s: string, t: string)
    requires ReadMembers(s).Good?
    ensures ReadMembers(s + t) == Good(ReadMembers(s).value, ReadMembers(s).rest + t)
    decreases |s|, 0
  {
    var s1 := Expect(QUOTE, s).rest;
    var s2 := ReadChars(s1).rest;
    var s3 := Expect(':', s2).rest;
    var s4 := Read(s3).rest;
    ExpectStable(QUOTE, s, t);
    ReadCharsStable(s1, t);
    ExpectStable(':', s2, t);
    ReadStable(s3, t);
    ExpectStable('}', s4, t);
    ExpectStable(',', s4, t);
    if Expect('}', s4).Bad? { ReadMembersStable(Expect(',', s4).rest, t); }
  }

  /** An object that is cut short anywhere does not read at all. */
  lemma NoPrefixReads(m: Members, k: nat)
    requires k < |Write(Obj(m))|
    ensures Read(Write(Obj(m))[..k]) == Bad
  {
    var s := Write(Obj(m));
    var p := s[..k];
    if Read(p).Good? {
      assert p[0] == '{' && SkipBlanks(p) == p;
      ReadStable(p, s[k..]);
      assert p + s[k..] == s && s + "" == s;
      ReadWritten(Obj(m), "");
    }
  }
}
