/** Texts of fields separated by dots: addresses and host names. */
module Dotted {

  /** The parts of `s` between its dots. */
  function Fields(s: string): (fields: seq<string>)
    ensures fields != []
  {
    if s == "" then [""]
    else if s[0] == '.' then [""] + Fields(s[1..])
    else
      var rest := Fields(s[1..]);
      [[s[0]] + rest[0]] + rest[1..]
  }

  lemma {:induction false} FieldsOfOne(s: string)
    requires '.' !in s
    ensures Fields(s) == [s]
  {
    if s != "" {
      FieldsOfOne(s[1..]);
      assert [s[0]] + s[1..] == s;
    }
  }

  lemma {:induction false} FieldsOfTwo(s: string, t: string)
    requires '.' !in s
    ensures Fields(s + "." + t) == [s] + Fields(t)
  {
    var u := s + "." + t;
    if s == "" {
      assert u[1..] == t;
    } else {
      FieldsOfTwo(s[1..], t);
      assert u[1..] == s[1..] + "." + t;
      assert [s[0]] + s[1..] == s;
    }
  }
}
