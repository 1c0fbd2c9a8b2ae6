/** The two-word layout of the capability system calls, and the sets it denotes
    (src/isolate/caps.rs). */
module CapabilityBits {
  import opened Capabilities
  import opened Options

  /** A u32 is its 32 bits, the least significant first. */
  type Word = w: seq<bool> | |w| == 32 witness seq(32, i => false)

  function And(a: Word, b: Word): Word { seq(32, i requires 0 <= i < 32 => a[i] && b[i]) }

  function Not(a: Word): Word { seq(32, i requires 0 <= i < 32 => !a[i]) }

  /** `1u32 << k`. */
  function Shifted(k: nat): Word
    requires k < 32
  {
    seq(32, i => i == k)
  }

  predicate NonZero(a: Word) { exists i :: 0 <= i < 32 && a[i] }

  datatype CapData = CapData(effective: Word, permitted: Word, inheritable: Word)

  const CAP_WORDS := 2

  datatype Position = Position(word: nat, mask: Word)

  /** None for a capability beyond the width of the interface. */
  function BitPosition(cap: Capability): (p: Option<Position>)
    ensures p.Some? <==> cap < WIDTH
  {
    if cap / 32 >= CAP_WORDS then None else Some(Position(cap / 32, Shifted(cap % 32)))
  }

  /** Whether a field whose two words are `low` and `high` has the capability. */
  predicate HasSetBit(low: Word, high: Word, cap: Capability)
    requires cap < WIDTH
  {
    var position := BitPosition(cap).value;
    NonZero(And(if position.word == 0 then low else high, position.mask))
  }

  /** The set of capabilities that a field denotes. */
  function Denoted(low: Word, high: Word): set<Capability> {
    set cap: Capability | cap < WIDTH && HasSetBit(low, high, cap)
  }

  // ---------------------------------------------------------------- one bit

  /** Testing a word against a one-bit mask reads that bit. */
  lemma MaskReadsBit(w: Word, k: nat)
    requires k < 32
    ensures NonZero(And(w, Shifted(k))) <==> w[k]
  {
    var a := And(w, Shifted(k));
    assert a[k] == w[k];
    assert forall i :: 0 <= i < 32 && a[i] ==> i == k;
  }

  lemma DenotesBits(low: Word, high: Word, cap: Capability)
    ensures cap in Denoted(low, high) <==> cap < WIDTH && (low + high)[cap]
  {
    if cap < WIDTH {
      MaskReadsBit(if cap < 32 then low else high, cap % 32);
    }
  }

  function Clear(w: Word, mask: Word): Word { And(w, Not(mask)) }

  /** Clearing a bit of the right word removes its number, and only that, from the set. */
  lemma ClearedField(low: Word, high: Word, cap: Capability)
    requires cap < WIDTH
    ensures cap < 32 ==> Denoted(Clear(low, Shifted(cap)), high) == Denoted(low, high) - {cap}
    ensures cap >= 32 ==> Denoted(low, Clear(high, Shifted(cap - 32))) == Denoted(low, high) - {cap}
  {
    var low', high' := if cap < 32 then Clear(low, Shifted(cap)) else low,
                       if cap < 32 then high else Clear(high, Shifted(cap - 32));
    forall other: Capability ensures other in Denoted(low', high') <==> other in Denoted(low, high) - {cap} {
      DenotesBits(low', high', other);
      DenotesBits(low, high, other);
    }
  }

  // ---------------------------------------------------------------- the buffer

  function EffectiveOf(data: seq<CapData>): set<Capability>
    requires |data| == CAP_WORDS
  {
    Denoted(data[0].effective, data[1].effective)
  }

  function PermittedOf(data: seq<CapData>): set<Capability>
    requires |data| == CAP_WORDS
  {
    Denoted(data[0].permitted, data[1].permitted)
  }

  function InheritableOf(data: seq<CapData>): set<Capability>
    requires |data| == CAP_WORDS
  {
    Denoted(data[0].inheritable, data[1].inheritable)
  }

  /** Clear one capability in all three fields, in place: exactly that number goes. */
  method ClearCapabilityBits(data: array<CapData>, cap: Capability) returns (ok: bool)
    requires data.Length == CAP_WORDS
    modifies data
    ensures ok <==> cap < WIDTH
    ensures !ok ==> data[..] == old(data[..])
    ensures ok ==>
      && EffectiveOf(data[..]) == EffectiveOf(old(data[..])) - {cap}
      && PermittedOf(data[..]) == PermittedOf(old(data[..])) - {cap}
      && InheritableOf(data[..]) == InheritableOf(old(data[..])) - {cap}
  {
    var position := BitPosition(cap);
    if position.None? { return false; }
    var word, mask := position.value.word, position.value.mask;
    var d := data[word];
    data[word] := CapData(Clear(d.effective, mask), Clear(d.permitted, mask), Clear(d.inheritable, mask));
    ghost var d0, d1 := old(data[0]), old(data[1]);
    ClearedField(d0.effective, d1.effective, cap);
    ClearedField(d0.permitted, d1.permitted, cap);
    ClearedField(d0.inheritable, d1.inheritable, cap);
    ok := true;
  }
}
