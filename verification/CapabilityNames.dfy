/** Names of capabilities (src/isolate/caps.rs). */
module CapabilityNames {
  import opened Capabilities
  import opened Options
  import opened Text

  function UpperChar(c: char): char {
    if 'a' <= c <= 'z' then c - 32 as char else c
  }

  function Upper(s: string): (u: string)
    ensures |u| == |s| && forall i :: 0 <= i < |s| ==> u[i] == UpperChar(s[i])
  {
    seq(|s|, i requires 0 <= i < |s| => UpperChar(s[i]))
  }

  const PREFIX := "CAP_"

  /** The name of capability number n stands at place n. */
  const NAMES: seq<string> := [
    "CAP_CHOWN", "CAP_DAC_OVERRIDE", "CAP_DAC_READ_SEARCH", "CAP_FOWNER", "CAP_FSETID", "CAP_KILL",
    "CAP_SETGID", "CAP_SETUID", "CAP_SETPCAP", "CAP_LINUX_IMMUTABLE", "CAP_NET_BIND_SERVICE",
    "CAP_NET_BROADCAST", "CAP_NET_ADMIN", "CAP_NET_RAW", "CAP_IPC_LOCK", "CAP_IPC_OWNER", "CAP_SYS_MODULE",
    "CAP_SYS_RAWIO", "CAP_SYS_CHROOT", "CAP_SYS_PTRACE", "CAP_SYS_PACCT", "CAP_SYS_ADMIN", "CAP_SYS_BOOT",
    "CAP_SYS_NICE", "CAP_SYS_RESOURCE", "CAP_SYS_TIME", "CAP_SYS_TTY_CONFIG", "CAP_MKNOD", "CAP_LEASE",
    "CAP_AUDIT_WRITE", "CAP_AUDIT_CONTROL", "CAP_SETFCAP", "CAP_MAC_OVERRIDE", "CAP_MAC_ADMIN", "CAP_SYSLOG",
    "CAP_WAKE_ALARM", "CAP_BLOCK_SUSPEND", "CAP_AUDIT_READ", "CAP_PERFMON", "CAP_BPF", "CAP_CHECKPOINT_RESTORE"
  ]

  function Place(names: seq<string>, name: string): (p: Option<nat>)
    ensures p.Some? ==> p.value < |names| && names[p.value] == name && name !in names[..p.value]
    ensures p.None? ==> name !in names
  {
    if names == [] then None
    else if names[0] == name then Some(0)
    else
      match Place(names[1..], name)
      case None => None
      case Some(i) => assert names[1..][..i] == names[1..i + 1]; Some(i + 1)
  }

  function NumberOf(name: string): Option<Capability> { Place(NAMES, name) }

  /** Exactly the 41 names are known, each number has one name, and the largest is 40. */
  lemma NumbersAreExact(a: string, b: string)
    ensures NumberOf(a).Some? <==> a in NAMES
    ensures NumberOf(a).Some? ==> NumberOf(a).value <= 40 && NAMES[NumberOf(a).value] == a
    ensures NumberOf(a).Some? && NumberOf(a) == NumberOf(b) ==> a == b
  {
    NameCount();
  }

  lemma NameCount()
    ensures |NAMES| == 41
  {
  }

  function Canonical(raw: string): string {
    var upper := Upper(Trim(raw));
    if PREFIX <= upper then upper else PREFIX + upper
  }

  /** None for an empty or unknown name. */
  function Parse(raw: string): Option<Capability> {
    if Trim(raw) == "" then None else NumberOf(Canonical(raw))
  }

  // ---------------------------------------------------------------- what a name denotes

  lemma PaddingIsTrimmed(before: string, s: string, after: string)
    requires AllWhitespace(before) && AllWhitespace(after)
    ensures Trim(before + s + after) == Trim(s)
  {
    assert before + s + after == before + (s + after);
    TrimStartSkips(before, s + after);
    TrimStartThenPad(s, after);
  }

  lemma TrimmedAlike(a: string, b: string)
    requires Trim(a) == Trim(b)
    ensures Parse(a) == Parse(b)
  {
  }

  lemma PaddingIsIgnored(before: string, s: string, after: string)
    requires AllWhitespace(before) && AllWhitespace(after)
    ensures Parse(before + s + after) == Parse(s)
  {
    PaddingIsTrimmed(before, s, after);
    TrimmedAlike(before + s + after, s);
  }

  /** Upper-casing never makes or removes whitespace. */
  lemma {:induction false} TrimUpper(s: string)
    ensures Trim(Upper(s)) == Upper(Trim(s))
  {
    TrimStartUpper(s);
    TrimEndUpper(TrimStart(s));
  }

  lemma {:induction false} TrimStartUpper(s: string)
    ensures TrimStart(Upper(s)) == Upper(TrimStart(s))
  {
    if s != "" && IsWhitespace(s[0]) {
      TrimStartUpper(s[1..]);
      assert Upper(s)[1..] == Upper(s[1..]);
    }
  }

  lemma {:induction false} TrimEndUpper(s: string)
    ensures TrimEnd(Upper(s)) == Upper(TrimEnd(s))
  {
    if s != "" && IsWhitespace(s[|s| - 1]) {
      TrimEndUpper(s[..|s| - 1]);
      assert Upper(s)[..|s| - 1] == Upper(s[..|s| - 1]);
    }
  }

  lemma CaseIsIgnored(s: string, t: string)
    requires Upper(s) == Upper(t)
    ensures Parse(s) == Parse(t)
  {
    TrimUpper(s);
    TrimUpper(t);
    assert Upper(Trim(s)) == Upper(Trim(t));
    assert |Upper(Trim(s))| == |Trim(s)| && |Upper(Trim(t))| == |Trim(t)|;
  }

  lemma PrefixIsCanonical(s: string)
    requires Trim(s) == s && s != "" && !(PREFIX <= Upper(s))
    ensures Trim(PREFIX + s) != "" && Canonical(PREFIX + s) == Canonical(s)
  {
    TrimEndPrefixed(s);
    assert Upper(PREFIX + s) == PREFIX + Upper(s);
  }

  /** The CAP_ prefix is optional on a name that has no such prefix yet. */
  lemma PrefixIsOptional(s: string)
    requires Trim(s) == s && s != "" && !(PREFIX <= Upper(s))
    ensures Parse(PREFIX + s) == Parse(s)
  {
    PrefixIsCanonical(s);
  }

  lemma {:induction false} TrimEndPrefixed(s: string)
    requires Trim(s) == s && s != ""
    ensures Trim(PREFIX + s) == PREFIX + s
  {
    TrimShrinks(s);
    TrimEndStops(TrimStart(s));
    assert TrimStart(PREFIX + s) == PREFIX + s;
    assert (PREFIX + s)[|PREFIX + s| - 1] == s[|s| - 1];
  }

  // ---------------------------------------------------------------- read without Parse

  /** `s` is `name`, but for lower-case ASCII letters. */
  predicate Spells(s: string, name: string) {
    |s| == |name| &&
    forall i :: 0 <= i < |s| ==> name[i] as int == s[i] as int - if 'a' <= s[i] <= 'z' then 32 else 0
  }

  /** `s` spells `name` in full, or without its prefix. */
  predicate Names(s: string, name: string) {
    if |PREFIX| <= |s| && Spells(s[..|PREFIX|], PREFIX) then Spells(s, name) else Spells(PREFIX + s, name)
  }

  /** `s` is neither empty nor has whitespace at an end. */
  predicate Solid(s: string) {
    s != "" && !IsWhitespace(s[0]) && !IsWhitespace(s[|s| - 1])
  }

  lemma SpellsIsUpper(s: string, name: string)
    ensures Spells(s, name) <==> Upper(s) == name
  {
    if |s| == |name| { assert Upper(s) == name <==> forall i :: 0 <= i < |s| ==> Upper(s)[i] == name[i]; }
  }

  lemma NamesIsCanonical(s: string, name: string)
    requires Solid(s)
    ensures Names(s, name) <==> Canonical(s) == name
  {
    SolidIsTrimmed(s);
    SpellsIsUpper(s, name);
    SpellsIsUpper(PREFIX + s, name);
    assert Upper(PREFIX + s) == PREFIX + Upper(s);
    if |PREFIX| <= |s| {
      SpellsIsUpper(s[..|PREFIX|], PREFIX);
      assert Upper(s[..|PREFIX|]) == Upper(s)[..|PREFIX|];
    }
  }

  lemma SolidIsTrimmed(s: string)
    requires Solid(s)
    ensures Trim(s) == s
  {
  }

  lemma PlaceIsFirst(names: seq<string>, name: string, n: nat)
    ensures Place(names, name) == Some(n) <==> n < |names| && names[n] == name && name !in names[..n]
  {
    match Place(names, name)
    case None => assert n < |names| ==> names[n] in names;
    case Some(p) =>
      assert n < p ==> names[n] in names[..p];
      assert p < n <= |names| ==> names[p] in names[..n];
  }

  lemma ParseIsPlace(s: string)
    requires Solid(s)
    ensures Parse(s) == Place(NAMES, Canonical(s))
  {
    SolidIsTrimmed(s);
  }

  /** Up to whitespace around it and the case of its ASCII letters, a string denotes number n
      exactly if it is the n-th name of the table, in full or without CAP_. */
  lemma ParseIsExact(before: string, s: string, after: string, n: nat)
    requires AllWhitespace(before) && AllWhitespace(after) && Solid(s)
    ensures Parse(before + s + after) == Some(n) <==>
            n < |NAMES| && Names(s, NAMES[n]) && forall m :: 0 <= m < n ==> !Names(s, NAMES[m])
  {
    PaddingIsIgnored(before, s, after);
    ParseIsPlace(s);
    NamedFirst(NAMES, s, n);
  }

  lemma NamedFirst(names: seq<string>, s: string, n: nat)
    requires Solid(s)
    ensures Place(names, Canonical(s)) == Some(n) <==>
            n < |names| && Names(s, names[n]) && forall m :: 0 <= m < n ==> !Names(s, names[m])
  {
    PlaceIsFirst(names, Canonical(s), n);
    forall m | 0 <= m < |names| ensures Names(s, names[m]) <==> Canonical(s) == names[m] {
      NamesIsCanonical(s, names[m]);
    }
    if n < |names| { assert Canonical(s) in names[..n] <==> exists m :: 0 <= m < n && names[m] == Canonical(s); }
  }

  /** Every other string is whitespace, and denotes nothing. */
  lemma BlankIsUnknown(s: string)
    requires AllWhitespace(s)
    ensures Parse(s) == None
  {
    assert s == s + "" + "";
    PaddingIsIgnored(s, "", "");
  }

  lemma {:induction false} SolidOrBlank(raw: string) returns (before: string, s: string, after: string)
    ensures raw == before + s + after && AllWhitespace(before) && AllWhitespace(after) && (s == "" || Solid(s))
  {
    if raw == "" || Solid(raw) {
      before, s, after := "", raw, "";
    } else if IsWhitespace(raw[0]) {
      before, s, after := SolidOrBlank(raw[1..]);
      before := [raw[0]] + before;
    } else {
      before, s, after := SolidOrBlank(raw[..|raw| - 1]);
      after := after + [raw[|raw| - 1]];
    }
  }
}
