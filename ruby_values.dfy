/**
 * The slice of Ruby's object model that the helper relies on: hash keys
 * (symbols and strings are different keys), the values stored under them,
 * truthiness, string interpolation (`"#{v}"`, i.e. `to_s`) and a `Hash`
 * object whose `delete` changes it in place.
 */
module RubyValues {
  import opened Wrappers

  /** A hash key: `:id` is `Sym("id")`, `'id'` is `Text("id")`, and they differ. */
  datatype Key = Sym(name: string) | Text(name: string)

  /**
   * A value held in a parameter hash. `Num` is any other real-valued
   * numeric (a Float, a Rational, a `BigDecimal`, a `Complex` with no
   * imaginary part), known by its exact value and its `to_s`; `Other` is any further object (a `Time`,
   * say), known by its `to_s`.
   */
  datatype Value =
    | Nil
    | Bool(b: bool)
    | Int(i: int)
    | Num(r: real, shown: string)
    | Str(s: string)
    | Other(shown: string)

  /** Ruby treats every value except `nil` and `false` as true in a condition. */
  predicate Truthy(v: Value) {
    v != Nil && v != Bool(false)
  }

  /**
   * `i == v` for an Integer `i`: Ruby compares numbers by value, so any other
   * numeric equal to `i` (a Float, a Rational, a `BigDecimal`, a `Complex`
   * with no imaginary part) matches too; no standard object that is not a
   * number does (a user-defined `==` is not modelled).
   */
  predicate IntEquals(i: int, v: Value) {
    match v
    case Int(j) => i == j
    case Num(r, _) => r == i as real
    case _ => false
  }

  /** `h[k]`: the stored value, or `nil` when the key is absent. */
  function Lookup(h: map<Key, Value>, k: Key): Value {
    if k in h then h[k] else Nil
  }

  // ---------------------------------------------------------------------
  // Decimal text of integers (`Integer#to_s`) and its inverse
  // ---------------------------------------------------------------------

  predicate IsDigit(ch: char) {
    '0' <= ch <= '9'
  }

  function DigitChar(d: nat): (ch: char)
    requires d < 10
    ensures IsDigit(ch) && ch as int - '0' as int == d
  {
    ('0' as int + d) as char
  }

  /** The decimal digits of `n`, most significant first, without leading zeros. */
  function NatToText(n: nat): (s: string)
    ensures |s| >= 1
    ensures forall k :: 0 <= k < |s| ==> IsDigit(s[k])
    ensures |s| > 1 ==> s[0] != '0'
    decreases n
  {
    if n < 10 then [DigitChar(n)] else NatToText(n / 10) + [DigitChar(n % 10)]
  }

  /** `Integer#to_s`: a leading minus sign for negative numbers. */
  function IntToText(i: int): string {
    if i < 0 then "-" + NatToText(-i) else NatToText(i)
  }

  /** Reads a non-empty string of decimal digits back as a number. */
  function ParseNat(s: string): Option<nat>
    decreases |s|
  {
    if |s| == 0 || !IsDigit(s[|s| - 1]) then None
    else
      var d := s[|s| - 1] as int - '0' as int;
      if |s| == 1 then Some(d)
      else match ParseNat(s[..|s| - 1])
        case None => None
        case Some(m) => Some(10 * m + d)
  }

  /** Reads the text `IntToText` writes back as a number. */
  function ParseInt(s: string): Option<int> {
    if |s| > 0 && s[0] == '-' then
      match ParseNat(s[1..])
      case None => None
      case Some(n) => Some(0 - n as int)
    else
      match ParseNat(s)
      case None => None
      case Some(n) => Some(n as int)
  }

  lemma {:induction false} NatToTextRoundTrip(n: nat)
    ensures ParseNat(NatToText(n)) == Some(n)
  {
    var s := NatToText(n);
    if n >= 10 {
      var prefix := NatToText(n / 10);
      assert s[..|s| - 1] == prefix;
      NatToTextRoundTrip(n / 10);
    }
  }

  /** Integer ids survive interpolation: their decimal text determines them. */
  lemma IntToTextRoundTrip(i: int)
    ensures ParseInt(IntToText(i)) == Some(i)
  {
    var s := IntToText(i);
    if i < 0 {
      assert s[0] == '-' && s[1..] == NatToText(-i);
      NatToTextRoundTrip(-i);
    } else {
      assert IsDigit(s[0]);
      NatToTextRoundTrip(i);
    }
  }

  /** String interpolation `"#{v}"`: `nil` becomes the empty string. */
  function ToS(v: Value): string {
    match v
    case Nil => ""
    case Bool(b) => if b then "true" else "false"
    case Int(i) => IntToText(i)
    case Num(_, shown) => shown
    case Str(s) => s
    case Other(shown) => shown
  }

  // ---------------------------------------------------------------------
  // A Hash object, changed in place
  // ---------------------------------------------------------------------

  /** A Ruby `Hash` that callers hand to the helper and that the helper may change. */
  class Hash {
    var entries: map<Key, Value>

    constructor (entries: map<Key, Value>)
      ensures this.entries == entries
    {
      this.entries := entries;
    }

    /** `hash[key]` */
    function Get(key: Key): Value
      reads this
    {
      Lookup(entries, key)
    }

    /** `hash.delete(key)`: removes the entry and answers the value it held, or `nil`. */
    method Delete(key: Key) returns (removed: Value)
      modifies this
      ensures entries == old(entries) - {key}
      ensures removed == Lookup(old(entries), key)
    {
      removed := Lookup(entries, key);
      entries := entries - {key};
    }
  }
}
