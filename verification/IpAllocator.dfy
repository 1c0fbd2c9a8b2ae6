/** The pod address pool (src/isolate/net.rs). */
module IpAllocator {
  import opened Decimal
  import opened Dotted
  import opened Options

  newtype u8 = x: int | 0 <= x < 256

  const FIRST_SUBNET: u8 := 1
  const SUBNET_END: u8 := 255
  const FIRST_HOST: u8 := 10
  const HOST_END: u8 := 254

  const PER_SUBNET: nat := 244

  function Format(subnet: nat, host: nat): string {
    "10.44." + Digits(subnet) + "." + Digits(host)
  }

  /** The `k`-th address of the pool. */
  function Address(k: nat): string {
    Format(1 + k / PER_SUBNET, 10 + k % PER_SUBNET)
  }

  // ---------------------------------------------------------------- the text read back

  /** `s` is the decimal numeral of `n`, without a leading zero. */
  predicate IsNumeral(s: string, n: nat) {
    && s != "" && (forall i :: 0 <= i < |s| ==> IsDigit(s[i])) && ValueOf(s) == n
    && (s[0] == '0' ==> |s| == 1)
  }

  /** `text` is 10.44 and then the subnet and the host of the `k`-th address. */
  predicate IsAddress(text: string, k: nat) {
    var f := Fields(text);
    && |f| == 4 && IsNumeral(f[0], 10) && IsNumeral(f[1], 44)
    && IsNumeral(f[2], 1 + k / 244) && IsNumeral(f[3], 10 + k % 244)
  }

  lemma DigitsAreNumeral(n: nat)
    ensures IsNumeral(Digits(n), n) && '.' !in Digits(n)
  {
    DigitsValue(n);
    assert !IsDigit('.');
  }

  lemma FormatFields(subnet: nat, host: nat)
    ensures Fields(Format(subnet, host)) == ["10", "44", Digits(subnet), Digits(host)]
  {
    var a, b := Digits(subnet), Digits(host);
    DigitsAreNumeral(subnet);
    DigitsAreNumeral(host);
    FieldsOfOne(b);
    FieldsOfTwo(a, b);
    FieldsOfTwo("44", a + "." + b);
    FieldsOfTwo("10", "44" + "." + (a + "." + b));
    SplitAddress(a, b);
  }

  lemma SplitAddress(a: string, b: string)
    ensures "10.44." + a + "." + b == "10" + "." + ("44" + "." + (a + "." + b))
  {
    var c, p, q := a + "." + b, "10" + ".", "44" + ".";
    assert "10.44." == p + q;
    assert "10.44." + a + "." + b == "10.44." + c;
    assert (p + q) + c == p + (q + c);
  }

  lemma NetworkIsNumeral()
    ensures IsNumeral("10", 10) && IsNumeral("44", 44)
  {
    assert ValueOf("10"[..1]) == 1 && ValueOf("44"[..1]) == 4;
  }

  lemma FormatReads(subnet: nat, host: nat)
    ensures var f := Fields(Format(subnet, host));
            && |f| == 4 && IsNumeral(f[0], 10) && IsNumeral(f[1], 44)
            && IsNumeral(f[2], subnet) && IsNumeral(f[3], host)
  {
    FormatFields(subnet, host);
    NetworkIsNumeral();
    DigitsAreNumeral(subnet);
    DigitsAreNumeral(host);
  }

  /** The address's four numbers can be read off its text. */
  lemma AddressReads(k: nat)
    ensures IsAddress(Address(k), k)
  {
    FormatReads(1 + k / PER_SUBNET, 10 + k % PER_SUBNET);
  }

  lemma FirstAddress()
    ensures Address(0) == "10.44.1.10"
  {
    assert Digits(1) == "1" && Digits(10) == Digits(1) + "0";
  }

  /** A numeral ends at the dot, so the text determines both numbers. */
  lemma FormatIsInjective(a: nat, b: nat, c: nat, d: nat)
    requires Format(a, b) == Format(c, d)
    ensures a == c && b == d
  {
    var x, y := Digits(a) + ("." + Digits(b)), Digits(c) + ("." + Digits(d));
    assert Format(a, b) == "10.44." + x && Format(c, d) == "10.44." + y;
    assert x == Format(a, b)[6..] == y;
    DigitCountOf(Digits(a), "." + Digits(b));
    DigitCountOf(Digits(c), "." + Digits(d));
    assert Digits(a) == x[..DigitCount(x)] == Digits(c);
    assert "." + Digits(b) == x[DigitCount(x)..] == "." + Digits(d);
    assert Digits(b) == ("." + Digits(b))[1..] == Digits(d);
    DigitsValue(a);
    DigitsValue(b);
    DigitsValue(c);
    DigitsValue(d);
  }

  lemma AddressesAreDistinct(j: nat, k: nat)
    requires Address(j) == Address(k)
    ensures j == k
  {
    FormatIsInjective(1 + j / PER_SUBNET, 10 + j % PER_SUBNET, 1 + k / PER_SUBNET, 10 + k % PER_SUBNET);
  }

  class IpAllocator {
    var inUse: set<string>
    var nextSubnet: u8
    var nextHost: u8

    /** How many allocations have succeeded. */
    ghost var issued: nat

    ghost predicate Valid()
      reads this
    {
      && FIRST_SUBNET <= nextSubnet <= SUBNET_END && FIRST_HOST <= nextHost <= HOST_END
      && (nextSubnet == SUBNET_END ==> nextHost == FIRST_HOST)
      && issued == (nextSubnet - FIRST_SUBNET) as nat * PER_SUBNET + (nextHost - FIRST_HOST) as nat
      && (forall ip :: ip in inUse ==> exists k: nat :: k < issued && ip == Address(k))
    }

    constructor ()
      ensures Valid() && issued == 0 && inUse == {}
    {
      inUse, nextSubnet, nextHost, issued := {}, FIRST_SUBNET, FIRST_HOST, 0;
    }

    /** The k-th success hands out the k-th address, whatever was released before; when
        the pool has been handed out once, every later call fails. */
    method Allocate() returns (ip: Option<string>)
      requires Valid()
      modifies this
      ensures Valid() && issued <= 61_976
      ensures old(issued) < 61_976 ==>
        && ip == Some(Address(old(issued))) && issued == old(issued) + 1
        && IsAddress(ip.value, old(issued))
        && ip.value !in old(inUse) && inUse == old(inUse) + {ip.value}
      ensures old(issued) >= 61_976 ==>
        ip == None && issued == old(issued) && inUse == old(inUse)
    {
      while true
        invariant Valid() && issued == old(issued) && inUse == old(inUse)
        decreases SUBNET_END - nextSubnet, HOST_END - nextHost
      {
        if nextSubnet >= SUBNET_END { return None; }
        if nextHost >= HOST_END {
          nextSubnet, nextHost := nextSubnet + 1, FIRST_HOST;
          continue;
        }
        var address := Format(nextSubnet as nat, nextHost as nat);
        assert address == Address(issued);
        nextHost, issued := nextHost + 1, issued + 1;
        if address !in inUse {
          inUse := inUse + {address};
          AddressReads(old(issued));
          return Some(address);
        }
        // An address is issued once, so it cannot be in use already.
        ghost var k: nat :| k < old(issued) && address == Address(k);
        AddressesAreDistinct(k, old(issued));
        assert false;
      }
    }

    /** Releasing an address, even one that was never allocated, succeeds and does not bring it back. */
    method Release(ip: string)
      requires Valid()
      modifies `inUse
      ensures Valid() && inUse == old(inUse) - {ip}
    {
      inUse := inUse - {ip};
    }
  }
}
