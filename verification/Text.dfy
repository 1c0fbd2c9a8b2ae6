/** Trimming, as str::trim and str::trim_end do it. */
module Text {

  /** Unicode White_Space, which str::trim strips. */
  predicate IsWhitespace(c: char) {
    var n := c as int;
    || 9 <= n <= 13 || n == 32 || n == 0x85 || n == 0xA0 || n == 0x1680
    || 0x2000 <= n <= 0x200A || n == 0x2028 || n == 0x2029 || n == 0x202F || n == 0x205F || n == 0x3000
  }

  function TrimStart(s: string): string {
    if s != "" && IsWhitespace(s[0]) then TrimStart(s[1..]) else s
  }

  function TrimEnd(s: string): string {
    if s != "" && IsWhitespace(s[|s| - 1]) then TrimEnd(s[..|s| - 1]) else s
  }

  function Trim(s: string): string { TrimEnd(TrimStart(s)) }

  predicate AllWhitespace(s: string) {
    forall i :: 0 <= i < |s| ==> IsWhitespace(s[i])
  }

  lemma {:induction false} TrimStartSkips(pad: string, s: string)
    requires AllWhitespace(pad)
    ensures TrimStart(pad + s) == TrimStart(s)
  {
    if pad == "" {
      assert pad + s == s;
    } else {
      TrimStartSkips(pad[1..], s);
      assert (pad + s)[1..] == pad[1..] + s;
    }
  }

  lemma {:induction false} TrimEndSkips(s: string, pad: string)
    requires AllWhitespace(pad)
    ensures TrimEnd(s + pad) == TrimEnd(s)
  {
    if pad == "" {
      assert s + pad == s;
    } else {
      TrimEndSkips(s, pad[..|pad| - 1]);
      assert (s + pad)[..|s + pad| - 1] == s + pad[..|pad| - 1];
    }
  }

  lemma BreakIsTrimmed(s: string)
    requires s != "" && !IsWhitespace(s[|s| - 1])
    ensures TrimEnd(s) == TrimEnd(s + "\n") == s
  {
    TrimEndSkips(s, "\n");
  }

  lemma {:induction false} TrimStartThenPad(s: string, pad: string)
    requires AllWhitespace(pad)
    ensures TrimEnd(TrimStart(s + pad)) == TrimEnd(TrimStart(s))
  {
    if s == "" {
      assert s + pad == pad + "";
      TrimStartSkips(pad, "");
    } else if IsWhitespace(s[0]) {
      assert (s + pad)[1..] == s[1..] + pad;
      TrimStartThenPad(s[1..], pad);
    } else {
      TrimEndSkips(s, pad);
    }
  }

  /** What TrimEnd leaves does not end in whitespace. */
  lemma {:induction false} TrimEndStops(s: string)
    ensures |TrimEnd(s)| <= |s|
    ensures TrimEnd(s) != "" ==> !IsWhitespace(TrimEnd(s)[|TrimEnd(s)| - 1])
  {
    if s != "" && IsWhitespace(s[|s| - 1]) { TrimEndStops(s[..|s| - 1]); }
  }

  lemma {:induction false} TrimShrinks(s: string)
    ensures |TrimStart(s)| <= |s|
  {
    if s != "" && IsWhitespace(s[0]) { TrimShrinks(s[1..]); }
  }

  lemma {:induction false} TrimEndIsPrefix(s: string)
    ensures |TrimEnd(s)| <= |s| && TrimEnd(s) == s[..|TrimEnd(s)|]
  {
    if s != "" && IsWhitespace(s[|s| - 1]) {
      TrimEndIsPrefix(s[..|s| - 1]);
    }
  }

  lemma TrimEndOfTake(s: string, k: nat)
    requires k <= |s|
    ensures |TrimEnd(s[..k])| <= k && TrimEnd(s[..k]) == s[..|TrimEnd(s[..k])|]
  {
    TrimEndIsPrefix(s[..k]);
  }
}
