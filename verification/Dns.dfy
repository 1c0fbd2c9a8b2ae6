/** The service registry (src/isolate/dns.rs). */
module Dns {
  import opened Dotted

  const ZONE := ".garden"

  function Suffix(pod: string): string { "." + pod + ZONE }

  function Fqdn(service: string, pod: string): string { service + Suffix(pod) }

  predicate EndsWith(s: string, suffix: string) {
    |suffix| <= |s| && s[|s| - |suffix|..] == suffix
  }

  predicate DotFree(s: string) { '.' !in s }

  // ---------------------------------------------------------------- names

  lemma ZoneIsOne()
    ensures Fields("garden") == ["garden"]
  {
    FieldsOfOne("garden");
  }

  /** The name reads service, pod and zone, from left to right. */
  lemma FqdnReads(service: string, pod: string)
    requires DotFree(service) && DotFree(pod)
    ensures Fields(Fqdn(service, pod)) == [service, pod, "garden"]
  {
    var zone := "garden";
    ZoneIsOne();
    FieldsOfTwo(pod, zone);
    FieldsOfTwo(service, pod + "." + zone);
    SplitName(service, pod);
  }

  lemma SplitName(service: string, pod: string)
    ensures Fqdn(service, pod) == service + "." + (pod + "." + "garden")
  {
    assert "." + "garden" == ZONE;
    assert pod + "." + "garden" == pod + ("." + "garden");
    assert service + "." + (pod + ZONE) == service + ("." + pod + ZONE);
  }

  lemma EndsWithCancels(s: string, suffix: string, tail: string)
    ensures EndsWith(s + tail, suffix + tail) <==> EndsWith(s, suffix)
  {
    if |suffix| <= |s| {
      var k := |s| - |suffix|;
      assert (s + tail)[k..] == s[k..] + tail;
      assert (s[k..] + tail)[..|suffix|] == s[k..] && (suffix + tail)[..|suffix|] == suffix;
    }
  }

  /** When the name of a service of pod `p` has the suffix of pod `q`: only if `q` is `p`,
      or the tail of `p` after a dot, or `p` with a tail of the service's name before it. */
  lemma SuffixMatches(service: string, p: string, q: string)
    ensures EndsWith(Fqdn(service, p), Suffix(q)) <==>
      p == q || EndsWith(p, "." + q) || (EndsWith(q, "." + p) && EndsWith(service, "." + q[..|q| - |p| - 1]))
  {
    var name := service + "." + p;
    assert Fqdn(service, p) == name + ZONE && Suffix(q) == "." + q + ZONE;
    EndsWithCancels(name, "." + q, ZONE);
    if |q| <= |p| {
      ShortSuffix(service, p, q);
    } else {
      LongSuffix(service, p, q);
    }
  }

  lemma ShortSuffix(service: string, p: string, q: string)
    requires |q| <= |p|
    ensures EndsWith(service + "." + p, "." + q) <==> p == q || EndsWith(p, "." + q)
  {
    var name := service + "." + p;
    if |q| == |p| {
      assert name[|service|..] == "." + p;
      assert ("." + p)[1..] == p && ("." + q)[1..] == q;
    } else {
      assert name[|name| - |q| - 1..] == p[|p| - |q| - 1..];
    }
  }

  lemma LongSuffix(service: string, p: string, q: string)
    requires |q| > |p|
    ensures EndsWith(service + "." + p, "." + q) <==>
      EndsWith(q, "." + p) && EndsWith(service, "." + q[..|q| - |p| - 1])
  {
    var n := |q| - |p| - 1;
    assert service + "." + p == service + ("." + p);
    if EndsWith(service + "." + p, "." + q) { LongSuffixHolds(service, p, q); }
    if EndsWith(q, "." + p) {
      assert q == q[..n] + ("." + p);
      assert "." + q == "." + q[..n] + ("." + p);
      EndsWithCancels(service, "." + q[..n], "." + p);
    }
  }

  lemma LongSuffixHolds(service: string, p: string, q: string)
    requires |q| > |p| && EndsWith(service + "." + p, "." + q)
    ensures EndsWith(q, "." + p)
  {
    var name, n := service + "." + p, |q| - |p| - 1;
    var k := |name| - |q| - 1;
    assert name[k..] == "." + q;
    assert q[n..] == ("." + q)[n + 1..] == name[k..][n + 1..] == name[|service|..] == "." + p;
  }

  lemma {:induction false} EndsWithDot(s: string, t: string)
    requires EndsWith(s, "." + t)
    ensures !DotFree(s)
  {
    assert s[|s| - |t| - 1] == s[|s| - |t| - 1..][0] == '.';
  }

  /** For names without dots the suffix of a pod picks out exactly its own services. */
  lemma PodOwnsSuffix(service: string, p: string, q: string)
    requires DotFree(p) && DotFree(q)
    ensures EndsWith(Fqdn(service, p), Suffix(q)) <==> p == q
  {
    SuffixMatches(service, p, q);
    if EndsWith(p, "." + q) { EndsWithDot(p, q); }
    if EndsWith(q, "." + p) { EndsWithDot(q, p); }
  }

  lemma NamesAreDistinct(s: string, p: string, t: string, q: string)
    requires DotFree(p) && DotFree(q) && Fqdn(s, p) == Fqdn(t, q)
    ensures s == t && p == q
  {
    assert EndsWith(Fqdn(t, q), Suffix(q)) by { PodOwnsSuffix(t, q, q); }
    PodOwnsSuffix(s, p, q);
    assert s == Fqdn(s, p)[..|s|] == Fqdn(t, q)[..|t|] == t;
  }

  /** With dots it does not: stopping pod `b` takes the services of pod `a.b` away too. */
  lemma DottedPodsCollide()
    ensures EndsWith(Fqdn("web", "a.b"), Suffix("b")) && "a.b" != "b"
    ensures Fqdn("web.a", "b") == Fqdn("web", "a.b")
  {
    assert EndsWith("a.b", "." + "b");
    SuffixMatches("web", "a.b", "b");
    assert Fqdn("web.a", "b") == Fqdn("web", "a.b");
  }

  // ---------------------------------------------------------------- the registry as a map on pairs

  type Entries = map<(string, string), string>

  predicate DotFreePods(entries: Entries) {
    forall e :: e in entries ==> DotFree(e.1)
  }

  /** `services` is the string-keyed form of `entries`. */
  ghost predicate Represents(services: map<string, string>, entries: Entries) {
    && (forall e :: e in entries ==> Fqdn(e.0, e.1) in services && services[Fqdn(e.0, e.1)] == entries[e])
    && (forall name :: name in services ==> exists e :: e in entries && name == Fqdn(e.0, e.1))
  }

  function Unregistered(services: map<string, string>, pod: string): map<string, string> {
    map name | name in services && !EndsWith(name, Suffix(pod)) :: services[name]
  }

  /** No other entry of the map goes by the new entry's name with another address. */
  predicate NameIsFree(entries: Entries, service: string, pod: string, ip: string) {
    forall e :: e in entries && e != (service, pod) && Fqdn(e.0, e.1) == Fqdn(service, pod) ==> entries[e] == ip
  }

  /** The name of a service of another pod has the suffix of `q` (see SuffixMatches). */
  predicate Clashes(service: string, p: string, q: string) {
    p != q && (EndsWith(p, "." + q) || (EndsWith(q, "." + p) && EndsWith(service, "." + q[..|q| - |p| - 1])))
  }

  function WithoutPod(entries: Entries, pod: string): Entries {
    map e | e in entries && e.1 != pod :: entries[e]
  }

  /** Registering is an update of the map on pairs exactly if the name is free. */
  lemma RegisterIsExact(services: map<string, string>, entries: Entries, service: string, pod: string, ip: string)
    requires Represents(services, entries)
    ensures Represents(services[Fqdn(service, pod) := ip], entries[(service, pod) := ip])
            <==> NameIsFree(entries, service, pod, ip)
  {
    var services', entries' := services[Fqdn(service, pod) := ip], entries[(service, pod) := ip];
    if NameIsFree(entries, service, pod, ip) {
      forall name | name in services' ensures exists e :: e in entries' && name == Fqdn(e.0, e.1) {
        if name == Fqdn(service, pod) {
          assert (service, pod) in entries' && name == Fqdn((service, pod).0, (service, pod).1);
        } else {
          var e :| e in entries && name == Fqdn(e.0, e.1);
          assert e in entries';
        }
      }
    } else {
      var e :| e in entries && e != (service, pod) && Fqdn(e.0, e.1) == Fqdn(service, pod) && entries[e] != ip;
      assert e in entries';
    }
  }

  /** Unregistering a pod removes that pod's entries and no others, exactly if no entry
      of another pod clashes with it. */
  lemma UnregisterIsExact(services: map<string, string>, entries: Entries, pod: string)
    requires Represents(services, entries)
    ensures Represents(Unregistered(services, pod), WithoutPod(entries, pod))
            <==> forall e :: e in entries ==> !Clashes(e.0, e.1, pod)
  {
    var services', entries' := Unregistered(services, pod), WithoutPod(entries, pod);
    forall e | e in entries
      ensures EndsWith(Fqdn(e.0, e.1), Suffix(pod)) <==> e.1 == pod || Clashes(e.0, e.1, pod)
    {
      SuffixMatches(e.0, e.1, pod);
    }
    if e :| e in entries && Clashes(e.0, e.1, pod) {
      assert e in entries' && Fqdn(e.0, e.1) !in services';
    } else {
      forall name | name in services' ensures exists e :: e in entries' && name == Fqdn(e.0, e.1) {
        var e :| e in entries && name == Fqdn(e.0, e.1);
        assert e in entries';
      }
    }
  }

  // ---------------------------------------------------------------- sequences of calls

  datatype Call = Register(service: string, pod: string, ip: string) | Unregister(pod: string)

  /** What a call does to the registry as it is. */
  function Served(services: map<string, string>, call: Call): map<string, string> {
    match call
    case Register(service, pod, ip) => services[Fqdn(service, pod) := ip]
    case Unregister(pod) => Unregistered(services, pod)
  }

  /** What a call is meant to do. */
  function Meant(entries: Entries, call: Call): Entries {
    match call
    case Register(service, pod, ip) => entries[(service, pod) := ip]
    case Unregister(pod) => WithoutPod(entries, pod)
  }

  predicate Harmless(entries: Entries, call: Call) {
    match call
    case Register(service, pod, ip) => NameIsFree(entries, service, pod, ip)
    case Unregister(pod) => forall e :: e in entries ==> !Clashes(e.0, e.1, pod)
  }

  lemma CallIsExact(services: map<string, string>, entries: Entries, call: Call)
    requires Represents(services, entries)
    ensures Represents(Served(services, call), Meant(entries, call)) <==> Harmless(entries, call)
  {
    match call
    case Register(service, pod, ip) => RegisterIsExact(services, entries, service, pod, ip);
    case Unregister(pod) => UnregisterIsExact(services, entries, pod);
  }

  function ServedAll(services: map<string, string>, calls: seq<Call>): map<string, string>
    decreases calls
  {
    if calls == [] then services else ServedAll(Served(services, calls[0]), calls[1..])
  }

  function MeantAll(entries: Entries, calls: seq<Call>): Entries
    decreases calls
  {
    if calls == [] then entries else MeantAll(Meant(entries, calls[0]), calls[1..])
  }

  /** Every call of the sequence is harmless when it is made. */
  predicate AllHarmless(entries: Entries, calls: seq<Call>)
    decreases calls
  {
    calls == [] || (Harmless(entries, calls[0]) && AllHarmless(Meant(entries, calls[0]), calls[1..]))
  }

  /** After every call so far the registry is what the calls mean. */
  ghost predicate AlwaysRepresents(services: map<string, string>, entries: Entries, calls: seq<Call>) {
    forall n :: 0 <= n <= |calls| ==> Represents(ServedAll(services, calls[..n]), MeantAll(entries, calls[..n]))
  }

  lemma AlwaysFromNext(services: map<string, string>, entries: Entries, calls: seq<Call>)
    requires calls != [] && Represents(services, entries)
    ensures AlwaysRepresents(services, entries, calls)
            <==> AlwaysRepresents(Served(services, calls[0]), Meant(entries, calls[0]), calls[1..])
  {
    var services', entries', later := Served(services, calls[0]), Meant(entries, calls[0]), calls[1..];
    forall n | 0 <= n <= |later|
      ensures ServedAll(services, calls[..n + 1]) == ServedAll(services', later[..n])
      ensures MeantAll(entries, calls[..n + 1]) == MeantAll(entries', later[..n])
    {
      assert calls[..n + 1][1..] == later[..n];
    }
    forall n | 0 < n <= |calls|
      ensures Represents(ServedAll(services, calls[..n]), MeantAll(entries, calls[..n]))
              <==> Represents(ServedAll(services', later[..n - 1]), MeantAll(entries', later[..n - 1]))
    {
      assert calls[..n] == calls[..(n - 1) + 1];
    }
    assert calls[..0] == [];
  }

  /** Whatever the names, the registry is at every moment what the calls so far mean iff
      each call was harmless when it was made. */
  lemma {:induction false} CallsAreExact(services: map<string, string>, entries: Entries, calls: seq<Call>)
    requires Represents(services, entries)
    ensures AlwaysRepresents(services, entries, calls) <==> AllHarmless(entries, calls)
    decreases calls
  {
    if calls == [] {
      assert forall n :: 0 <= n <= |calls| ==> calls[..n] == [];
    } else {
      var services', entries' := Served(services, calls[0]), Meant(entries, calls[0]);
      CallIsExact(services, entries, calls[0]);
      if Harmless(entries, calls[0]) {
        AlwaysFromNext(services, entries, calls);
        CallsAreExact(services', entries', calls[1..]);
      } else {
        assert calls[..1] == [calls[0]] && ServedAll(services, calls[..1]) == services';
        assert MeantAll(entries, calls[..1]) == entries';
      }
    }
  }

  // ---------------------------------------------------------------- names without dots

  lemma DotFreeCallIsHarmless(entries: Entries, call: Call)
    requires DotFreePods(entries) && DotFree(call.pod)
    ensures Harmless(entries, call) && DotFreePods(Meant(entries, call))
  {
    forall e | e in entries ensures !Clashes(e.0, e.1, call.pod) {
      PodOwnsSuffix(e.0, e.1, call.pod);
      SuffixMatches(e.0, e.1, call.pod);
    }
    if call.Register? {
      forall e | e in entries && Fqdn(e.0, e.1) == Fqdn(call.service, call.pod) ensures e == (call.service, call.pod) {
        NamesAreDistinct(e.0, e.1, call.service, call.pod);
      }
    }
  }

  /** With dot-free pod names the registry is the map on pairs, through any calls. */
  lemma {:induction false} DotFreeNamesRefine(services: map<string, string>, entries: Entries, calls: seq<Call>)
    requires Represents(services, entries) && DotFreePods(entries)
    requires forall k :: 0 <= k < |calls| ==> DotFree(calls[k].pod)
    ensures Represents(ServedAll(services, calls), MeantAll(entries, calls))
    ensures AllHarmless(entries, calls) && DotFreePods(MeantAll(entries, calls))
    decreases calls
  {
    if calls != [] {
      DotFreeCallIsHarmless(entries, calls[0]);
      CallIsExact(services, entries, calls[0]);
      DotFreeNamesRefine(Served(services, calls[0]), Meant(entries, calls[0]), calls[1..]);
    }
  }

  /** So a lookup of a service's full name finds the address of that very service, or nothing. */
  lemma LookupIsExact(services: map<string, string>, entries: Entries, service: string, pod: string)
    requires Represents(services, entries) && DotFreePods(entries) && DotFree(pod)
    ensures Fqdn(service, pod) in services <==> (service, pod) in entries
    ensures (service, pod) in entries ==> services[Fqdn(service, pod)] == entries[(service, pod)]
  {
    if Fqdn(service, pod) in services {
      var e :| e in entries && Fqdn(service, pod) == Fqdn(e.0, e.1);
      NamesAreDistinct(service, pod, e.0, e.1);
    }
    if (service, pod) in entries {
      assert Fqdn((service, pod).0, (service, pod).1) in services;
    }
  }

  // ---------------------------------------------------------------- the registry itself

  class ServiceRegistry {
    var services: map<string, string>

    /** What the calls made so far mean. */
    ghost var entries: Entries

    ghost predicate Valid()
      reads this
    {
      Represents(services, entries)
    }

    constructor ()
      ensures Valid() && entries == map[]
    {
      services, entries := map[], map[];
    }

    /** Registering keeps the registry what the calls mean iff the name is free, as it always
        is among pods without dots in their names. */
    method RegisterService(service: string, pod: string, ip: string)
      modifies this
      ensures services == Served(old(services), Register(service, pod, ip))
      ensures entries == Meant(old(entries), Register(service, pod, ip))
      ensures old(Valid()) ==> (Valid() <==> NameIsFree(old(entries), service, pod, ip))
      ensures old(Valid() && DotFreePods(entries)) && DotFree(pod) ==> Valid() && DotFreePods(entries)
    {
      ghost var call := Register(service, pod, ip);
      if Valid() { CallIsExact(services, entries, call); }
      if DotFreePods(entries) && DotFree(pod) { DotFreeCallIsHarmless(entries, call); }
      services := services[Fqdn(service, pod) := ip];
      entries := Meant(entries, call);
    }

    /** Removing a pod's names keeps it so iff no entry of another pod clashes with the pod. */
    method UnregisterPodServices(pod: string)
      modifies this
      ensures services == Served(old(services), Unregister(pod)) && entries == Meant(old(entries), Unregister(pod))
      ensures old(Valid()) ==> (Valid() <==> forall e :: e in old(entries) ==> !Clashes(e.0, e.1, pod))
      ensures old(Valid() && DotFreePods(entries)) && DotFree(pod) ==> Valid() && DotFreePods(entries)
    {
      ghost var call := Unregister(pod);
      if Valid() { CallIsExact(services, entries, call); }
      if DotFreePods(entries) && DotFree(pod) { DotFreeCallIsHarmless(entries, call); }
      RemoveNames(Suffix(pod));
      entries := Meant(entries, call);
    }

    /** The loop over the names that end in `suffix`. */
    method RemoveNames(suffix: string)
      modifies `services
      ensures services == map name | name in old(services) && !EndsWith(name, suffix) :: old(services)[name]
    {
      var all := set name | name in services && EndsWith(name, suffix);
      var toRemove := all;
      while toRemove != {}
        invariant toRemove <= all && services == old(services) - (all - toRemove)
        decreases |toRemove|
      {
        var name :| name in toRemove;
        services := services - {name};
        toRemove := toRemove - {name};
      }
      assert services == old(services) - all;
    }
  }
}
