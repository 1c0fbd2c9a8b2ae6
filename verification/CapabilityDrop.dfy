/** `drop_capabilities` against the kernel's rules (src/isolate/caps.rs). */
module CapabilityDrop {
  import opened Capabilities
  import opened CapabilityBits
  import opened CapabilityNames
  import opened Options

  function Parsed(names: seq<string>): (ps: seq<Option<Capability>>)
    ensures |ps| == |names|
  {
    seq(|names|, i requires 0 <= i < |names| => Parse(names[i]))
  }

  /** The first `n` are known. */
  predicate AllSome(ps: seq<Option<Capability>>, n: nat)
    requires n <= |ps|
  {
    forall i :: 0 <= i < n ==> ps[i].Some?
  }

  function Values(ps: seq<Option<Capability>>, n: nat): set<Capability>
    requires n <= |ps|
  {
    if n == 0 then {} else Values(ps, n - 1) + if ps[n - 1].Some? then {ps[n - 1].value} else {}
  }

  /** `Values` holds what the first `n` names denote, each of them and nothing else. */
  lemma {:induction false} ValuesAreDenoted(ps: seq<Option<Capability>>, n: nat, c: Capability)
    requires n <= |ps|
    ensures c in Values(ps, n) <==> exists i :: 0 <= i < n && ps[i] == Some(c)
  {
    if n > 0 { ValuesAreDenoted(ps, n - 1, c); }
  }

  predicate Supported(caps: set<Capability>, last: Capability) {
    forall c :: c in caps ==> c <= last
  }

  /** A policy, by what its names parse to, that the caller is able to carry out. */
  predicate Enforceable(ps: seq<Option<Capability>>, last: Capability, k: Creds) {
    var caps := Values(ps, |ps|);
    ps == [] ||
    (AllSome(ps, |ps|) && Supported(caps, last) && (caps !! k.bounding || CAP_SETPCAP in k.effective))
  }

  /** Nothing was gained, and only requested capabilities were lost. */
  predicate OnlyLost(before: Creds, after: Creds, caps: set<Capability>) {
    && before.effective - caps <= after.effective <= before.effective
    && before.permitted - caps <= after.permitted <= before.permitted
    && before.inheritable - caps <= after.inheritable <= before.inheritable
    && before.bounding - caps <= after.bounding <= before.bounding
    && before.ambient - caps <= after.ambient <= before.ambient
  }

  // ---------------------------------------------------------------- by name

  /** How names are read: the proofs below need nothing more about it. */
  type Reading = string -> Option<Capability>

  /** `ps` is what `names` denote, one by one. */
  predicate Reads(parse: Reading, names: seq<string>, ps: seq<Option<Capability>>) {
    |ps| == |names| && forall i :: 0 <= i < |names| ==> ps[i] == parse(names[i])
  }

  /** Some name of the list denotes `c`. */
  predicate Denoted(parse: Reading, names: seq<string>, c: Capability) {
    exists i :: 0 <= i < |names| && parse(names[i]) == Some(c)
  }

  /** The capability that each name denotes is out of all five sets. */
  predicate LacksNamed(parse: Reading, names: seq<string>, after: Creds) {
    forall i :: 0 <= i < |names| ==> parse(names[i]).Some? && after.Lacks(parse(names[i]).value)
  }

  /** A capability that no name denotes is in a set afterwards if and only if it was before. */
  ghost predicate KeepsOthers(parse: Reading, names: seq<string>, before: Creds, after: Creds) {
    forall c: Capability {:trigger Denoted(parse, names, c)} :: !Denoted(parse, names, c) ==> after.Agrees(before, c)
  }

  lemma DenotedIsValue(parse: Reading, names: seq<string>, ps: seq<Option<Capability>>, c: Capability)
    requires Reads(parse, names, ps)
    ensures c in Values(ps, |ps|) <==> Denoted(parse, names, c)
  {
    ValuesAreDenoted(ps, |ps|, c);
  }

  lemma WithoutLacksNamed(parse: Reading, names: seq<string>, ps: seq<Option<Capability>>, before: Creds)
    requires Reads(parse, names, ps) && AllSome(ps, |ps|)
    ensures LacksNamed(parse, names, before.Without(Values(ps, |ps|)))
  {
    forall i | 0 <= i < |names|
      ensures parse(names[i]).Some? && parse(names[i]).value in Values(ps, |ps|)
    {
      assert ps[i] == parse(names[i]);
      DenotedIsValue(parse, names, ps, parse(names[i]).value);
    }
  }

  lemma OnlyLostKeepsOthers(
    parse: Reading, names: seq<string>, ps: seq<Option<Capability>>, before: Creds, after: Creds)
    requires Reads(parse, names, ps) && OnlyLost(before, after, Values(ps, |ps|))
    ensures KeepsOthers(parse, names, before, after)
  {
    forall c: Capability | !Denoted(parse, names, c) ensures after.Agrees(before, c) {
      DenotedIsValue(parse, names, ps, c);
    }
  }

  /** A policy can be carried out if it is empty, or if every name is known to this kernel and
      none denotes a capability of the bounding set unless CAP_SETPCAP is effective. */
  lemma EnforceableByName(
    parse: Reading, names: seq<string>, ps: seq<Option<Capability>>, last: Capability, k: Creds)
    requires Reads(parse, names, ps)
    ensures Enforceable(ps, last, k) <==>
            names == [] ||
            ((forall i :: 0 <= i < |names| ==> parse(names[i]).Some? && parse(names[i]).value <= last)
             && (CAP_SETPCAP in k.effective || forall c :: c in k.bounding ==> !Denoted(parse, names, c)))
  {
    forall c: Capability ensures c in Values(ps, |ps|) <==> Denoted(parse, names, c) {
      DenotedIsValue(parse, names, ps, c);
    }
    assert AllSome(ps, |ps|) <==> forall i :: 0 <= i < |names| ==> parse(names[i]).Some?;
    forall i | 0 <= i < |names| && parse(names[i]).Some? ensures parse(names[i]).value in Values(ps, |ps|) {
      assert ps[i] == parse(names[i]);
    }
  }

  /** Which names denote the policy does not matter: only which numbers they denote. */
  lemma SameNumbersSamePolicy(
    ps: seq<Option<Capability>>, qs: seq<Option<Capability>>, last: Capability, k: Creds)
    requires AllSome(ps, |ps|) && AllSome(qs, |qs|) && Values(ps, |ps|) == Values(qs, |qs|)
    ensures Enforceable(ps, last, k) <==> Enforceable(qs, last, k)
    ensures k.Without(Values(ps, |ps|)) == k.Without(Values(qs, |qs|))
  {
    NoNamesNoNumbers(ps);
    NoNamesNoNumbers(qs);
  }

  lemma NoNamesNoNumbers(ps: seq<Option<Capability>>)
    requires AllSome(ps, |ps|)
    ensures ps == [] <==> Values(ps, |ps|) == {}
  {
    if ps != [] { assert ps[|ps| - 1].value in Values(ps, |ps|); }
  }

  /** The calling process, as the kernel sees it. In a faulty kernel any system call may
      also fail for no reason that capabilities(7) gives. */
  class Caller {
    const last: Capability
    const faulty: bool
    var words: seq<CapData>
    var bounding: set<Capability>
    var ambient: set<Capability>

    ghost function Creds(): Creds
      requires |words| == CAP_WORDS
      reads this
    {
      Capabilities.Creds.Creds(EffectiveOf(words), PermittedOf(words), InheritableOf(words), bounding, ambient)
    }

    ghost predicate Valid()
      reads this
    {
      |words| == CAP_WORDS && last < WIDTH && Creds().Valid()
    }

    constructor (
      words: seq<CapData>, bounding: set<Capability>, ambient: set<Capability>, last: Capability, faulty: bool)
      requires |words| == CAP_WORDS && last < WIDTH
      requires Capabilities.Creds.Creds(
                 EffectiveOf(words), PermittedOf(words), InheritableOf(words), bounding, ambient).Valid()
      ensures Valid() && this.words == words && this.bounding == bounding && this.ambient == ambient
      ensures this.last == last && this.faulty == faulty
    {
      this.words, this.bounding, this.ambient, this.last, this.faulty := words, bounding, ambient, last, faulty;
    }

    // -------------------------------------------------------------- system calls

    method Fault() returns (fails: bool)
      ensures fails ==> faulty
    {
      fails := *;
      fails := fails && faulty;
    }

    method Capget() returns (ok: bool, data: array<CapData>)
      requires |words| == CAP_WORDS
      ensures fresh(data) && data.Length == CAP_WORDS
      ensures if ok then data[..] == words else faulty
    {
      var fails := Fault();
      data := new CapData[] [words[0], words[1]];
      ok := !fails;
      assert data[..] == words;
    }

    method ReadBounding(cap: Capability) returns (ok: bool, present: bool)
      ensures !ok ==> faulty || cap > last
      ensures ok ==> (present <==> cap in bounding)
    {
      var fails := Fault();
      ok, present := !fails && cap <= last, cap in bounding;
    }

    method ReadAmbient(cap: Capability) returns (ok: bool, present: bool)
      ensures !ok ==> faulty || cap > last
      ensures ok ==> (present <==> cap in ambient)
    {
      var fails := Fault();
      ok, present := !fails && cap <= last, cap in ambient;
    }

    /** PR_CAPBSET_DROP needs an effective CAP_SETPCAP. */
    method DropBounding(cap: Capability) returns (ok: bool)
      requires |words| == CAP_WORDS
      modifies `bounding
      ensures ok ==> MayDropBounding(Creds()) && bounding == old(bounding) - {cap}
      ensures !ok ==> bounding == old(bounding)
      ensures !ok ==> faulty || cap > last || !MayDropBounding(Creds())
    {
      var fails := Fault();
      ok := !fails && cap <= last && HasSetBit(words[0].effective, words[1].effective, CAP_SETPCAP);
      if ok { bounding := bounding - {cap}; }
    }

    method LowerAmbient(cap: Capability) returns (ok: bool)
      modifies `ambient
      ensures ok ==> ambient == old(ambient) - {cap}
      ensures !ok ==> ambient == old(ambient) && (faulty || cap > last)
    {
      var fails := Fault();
      ok := !fails && cap <= last;
      if ok { ambient := ambient - {cap}; }
    }

    method Capset(data: array<CapData>) returns (ok: bool)
      requires |words| == CAP_WORDS && data.Length == CAP_WORDS
      modifies `words, `ambient
      ensures |words| == CAP_WORDS
      ensures
        var k, e, p, i := old(Creds()), EffectiveOf(data[..]), PermittedOf(data[..]), InheritableOf(data[..]);
        if ok then MayCapset(k, e, p, i) && Creds() == Capabilities.Capset(k, e, p, i)
        else Creds() == k && (faulty || !MayCapset(k, e, p, i))
    {
      var fails := Fault();
      var e, p, i := EffectiveOf(data[..]), PermittedOf(data[..]), InheritableOf(data[..]);
      ok := !fails && MayCapset(
        Capabilities.Creds.Creds(EffectiveOf(words), PermittedOf(words), InheritableOf(words), bounding, ambient),
        e, p, i);
      if ok { words, ambient := data[..], ambient * p * i; }
    }

    // -------------------------------------------------------------- drop_capabilities, phase by phase

    /** `ps` is what the names of the policy parse to. */
    method CheckPolicy(ps: seq<Option<Capability>>) returns (ok: bool, caps: set<Capability>)
      ensures ok ==> AllSome(ps, |ps|) && Supported(caps, last) && caps == Values(ps, |ps|)
      ensures !ok ==> !AllSome(ps, |ps|) || !Supported(Values(ps, |ps|), last)
    {
      caps := {};
      for i := 0 to |ps|
        invariant caps == Values(ps, i) && AllSome(ps, i) && Supported(caps, last)
      {
        if ps[i].None? { return false, caps; }
        caps := caps + {ps[i].value};
        if ps[i].value > last {
          ValuesGrow(ps, i + 1, |ps|);
          return false, caps;
        }
      }
      ok := true;
    }

    /** Is any of `caps` in the bounding set? */
    method NeedsBoundingDrop(caps: set<Capability>) returns (ok: bool, needs: bool)
      requires Supported(caps, last)
      ensures !ok ==> faulty
      ensures ok ==> (needs <==> !(caps !! bounding))
    {
      var todo := caps;
      ok, needs := true, false;
      while todo != {}
        invariant ok && todo <= caps && (needs <==> !((caps - todo) !! bounding))
        decreases |todo|
      {
        var cap :| cap in todo;
        var present;
        ok, present := ReadBounding(cap);
        if !ok { return; }
        needs := needs || present;
        todo := todo - {cap};
      }
      assert caps - todo == caps;
    }

    /** Read the state of each of `caps`; `clear` says that none is in any of the five sets. */
    method ReadStates(data: array<CapData>, caps: set<Capability>) returns (ok: bool, clear: bool)
      requires |words| == CAP_WORDS == data.Length && data[..] == words && Supported(caps, last) && last < WIDTH
      ensures !ok ==> faulty
      ensures ok ==> (clear <==> forall c :: c in caps ==> Creds().Lacks(c))
    {
      var todo := caps;
      ok, clear := true, true;
      while todo != {}
        invariant ok && todo <= caps
        invariant clear <==> forall c :: c in caps - todo ==> Creds().Lacks(c)
        decreases |todo|
      {
        var cap :| cap in todo;
        var held := HasSetBit(data[0].effective, data[1].effective, cap)
          || HasSetBit(data[0].permitted, data[1].permitted, cap)
          || HasSetBit(data[0].inheritable, data[1].inheritable, cap);
        var inBounding, inAmbient;
        ok, inBounding := ReadBounding(cap);
        if !ok { return; }
        ok, inAmbient := ReadAmbient(cap);
        if !ok { return; }
        assert !(held || inBounding || inAmbient) <==> Creds().Lacks(cap);
        clear := clear && !(held || inBounding || inAmbient);
        assert caps - (todo - {cap}) == (caps - todo) + {cap};
        todo := todo - {cap};
      }
    }

    method DropAllBounding(caps: set<Capability>) returns (ok: bool)
      requires |words| == CAP_WORDS && Supported(caps, last)
      modifies `bounding
      ensures ok ==> bounding == old(bounding) - caps
      ensures !ok ==> old(bounding) - caps <= bounding <= old(bounding)
      ensures !ok ==> faulty || (!MayDropBounding(Creds()) && !(caps !! old(bounding)))
    {
      var todo := caps;
      ok := true;
      while todo != {}
        invariant ok && todo <= caps && bounding == old(bounding) - (caps - todo)
        decreases |todo|
      {
        var cap :| cap in todo;
        var present;
        ok, present := ReadBounding(cap);
        if !ok { return; }
        if present {
          ok := DropBounding(cap);
          if !ok { return; }
        }
        todo := todo - {cap};
      }
    }

    method LowerAllAmbient(caps: set<Capability>) returns (ok: bool)
      requires Supported(caps, last)
      modifies `ambient
      ensures ok ==> ambient == old(ambient) - caps
      ensures !ok ==> faulty && old(ambient) - caps <= ambient <= old(ambient)
    {
      var todo := caps;
      ok := true;
      while todo != {}
        invariant ok && todo <= caps && ambient == old(ambient) - (caps - todo)
        decreases |todo|
      {
        var cap :| cap in todo;
        var present;
        ok, present := ReadAmbient(cap);
        if !ok { return; }
        if present {
          ok := LowerAmbient(cap);
          if !ok { return; }
        }
        todo := todo - {cap};
      }
    }

    method ClearAll(data: array<CapData>, caps: set<Capability>) returns (ok: bool)
      requires data.Length == CAP_WORDS && Supported(caps, last) && last < WIDTH
      modifies data
      ensures ok
      ensures EffectiveOf(data[..]) == old(EffectiveOf(data[..])) - caps
      ensures PermittedOf(data[..]) == old(PermittedOf(data[..])) - caps
      ensures InheritableOf(data[..]) == old(InheritableOf(data[..])) - caps
    {
      var todo := caps;
      ok := true;
      while todo != {}
        invariant ok && todo <= caps
        invariant EffectiveOf(data[..]) == old(EffectiveOf(data[..])) - (caps - todo)
        invariant PermittedOf(data[..]) == old(PermittedOf(data[..])) - (caps - todo)
        invariant InheritableOf(data[..]) == old(InheritableOf(data[..])) - (caps - todo)
        decreases |todo|
      {
        var cap :| cap in todo;
        ok := ClearCapabilityBits(data, cap);
        todo := todo - {cap};
      }
    }

    /** Success takes exactly the capabilities that the names denote out of all five sets. A policy
        that cannot be enforced is refused before anything changes. In a faulty kernel
        a failed call may have lost some requested capabilities, never others. */
    method DropCapabilities(names: seq<string>) returns (ok: bool)
      requires Valid()
      modifies this
      ensures Valid()
      ensures ok ==> Enforceable(Parsed(names), last, old(Creds()))
      ensures ok ==> LacksNamed(Parse, names, Creds())
      ensures KeepsOthers(Parse, names, old(Creds()), Creds())
      ensures ok ==> Creds() == old(Creds()).Without(Values(Parsed(names), |names|))
      ensures !ok ==> faulty || !Enforceable(Parsed(names), last, old(Creds()))
      ensures !Enforceable(Parsed(names), last, old(Creds())) ==> Creds() == old(Creds())
      ensures !ok && !faulty ==> Creds() == old(Creds())
      ensures OnlyLost(old(Creds()), Creds(), Values(Parsed(names), |names|))
    {
      ghost var was := Creds();
      var ps := Parsed(names);
      ok := DropParsed(ps);
      OnlyLostKeepsOthers(Parse, names, ps, was, Creds());
      if ok { WithoutLacksNamed(Parse, names, ps, was); }
    }

    method DropParsed(ps: seq<Option<Capability>>) returns (ok: bool)
      requires Valid()
      modifies this
      ensures Valid()
      ensures ok ==> Enforceable(ps, last, old(Creds())) && Creds() == old(Creds()).Without(Values(ps, |ps|))
      ensures !ok ==> faulty || !Enforceable(ps, last, old(Creds()))
      ensures !Enforceable(ps, last, old(Creds())) ==> Creds() == old(Creds())
      ensures !ok && !faulty ==> Creds() == old(Creds())
      ensures OnlyLost(old(Creds()), Creds(), Values(ps, |ps|))
    {
      if ps == [] { return true; }
      var fails := Fault();
      if fails { return false; }
      var caps;
      ok, caps := CheckPolicy(ps);
      if !ok { return; }
      var data;
      ok, data := Capget();
      if !ok { return; }
      var needs;
      ok, needs := NeedsBoundingDrop(caps);
      if !ok { return; }
      if needs && !HasSetBit(data[0].effective, data[1].effective, CAP_SETPCAP) { return false; }
      var clear;
      ok, clear := ReadStates(data, caps);
      if !ok { return; }
      ok := Enforce(data, caps);
    }

    /** The transition itself, and its check. */
    method Enforce(data: array<CapData>, caps: set<Capability>) returns (ok: bool)
      requires Valid() && Supported(caps, last) && data.Length == CAP_WORDS && data[..] == words
      requires caps !! bounding || CAP_SETPCAP in Creds().effective
      modifies this, data
      ensures Valid() && OnlyLost(old(Creds()), Creds(), caps)
      ensures ok ==> Creds() == old(Creds()).Without(caps)
      ensures !ok ==> faulty
    {
      ghost var was := Creds();
      ok := DropAllBounding(caps);
      if !ok { return; }
      ok := LowerAllAmbient(caps);
      if !ok { return; }
      ok := ClearAll(data, caps);
      ok := Capset(data);
      if !ok { return; }
      assert Creds() == was.Without(caps);
      var verified, clear;
      ok, verified := Capget();
      if !ok { return; }
      ok, clear := ReadStates(verified, caps);
      ok := ok && clear;
    }
  }

  lemma {:induction false} ValuesGrow(ps: seq<Option<Capability>>, m: nat, n: nat)
    requires m <= n <= |ps|
    ensures Values(ps, m) <= Values(ps, n)
  {
    if m < n { ValuesGrow(ps, m, n - 1); }
  }
}
