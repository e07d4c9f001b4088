/** Message ids from a counter: `<prefix><counter in base 36>`, cut to 36 characters.

    Models `CounterIds` and `MessageId::truncating` of src/types.rs. */
module MessageIds {
  import opened Basics
  import opened Messages

  const MESSAGE_ID_MAX_LEN: nat := 36

  /** The digits the generator's buffer has room for. */
  const BUFFER: nat := 13

  function Digit(d: nat): (r: char)
    requires d < 36
  {
    if d < 10 then '0' + d as char else 'a' + (d - 10) as char
  }

  function Base36(v: nat): (r: string)
    ensures |r| > 0
  {
    if v < 36 then [Digit(v)] else Base36(v / 36) + [Digit(v % 36)]
  }

  function Truncating(text: string): (r: MessageId)
  {
    if |text| > MESSAGE_ID_MAX_LEN then text[..MESSAGE_ID_MAX_LEN] else text
  }

  /** The id the generator produces when its counter stands at `v`. */
  function IdText(prefix: string, v: nat): (r: MessageId)
  {
    Truncating(prefix + Base36(v))
  }

  function Pow36(n: nat): (r: nat)
    ensures r > 0
  {
    if n == 0 then 1 else 36 * Pow36(n - 1)
  }

  lemma DigitInjective(a: nat, b: nat)
    requires a < 36 && b < 36 && Digit(a) == Digit(b)
    ensures a == b
  {
  }

  lemma {:induction false} Base36Injective(a: nat, b: nat)
    requires Base36(a) == Base36(b)
    ensures a == b
  {
    var x, y := Base36(a), Base36(b);
    DigitInjective(a % 36, b % 36) by {
      assert x[|x| - 1] == Digit(a % 36) && y[|y| - 1] == Digit(b % 36);
    }
    if a >= 36 && b >= 36 {
      assert Base36(a / 36) == x[..|x| - 1] && Base36(b / 36) == y[..|y| - 1];
      Base36Injective(a / 36, b / 36);
    }
  }

  lemma {:induction false} Base36Length(v: nat, n: nat)
    requires n > 0 && v < Pow36(n)
    ensures |Base36(v)| <= n
  {
    if v >= 36 {
      assert n > 1;
      Base36Length(v / 36, n - 1);
    }
  }

  lemma CounterFitsBuffer()
    ensures U64_LIMIT <= Pow36(BUFFER)
    ensures Pow36(BUFFER - 1) + 1 < U64_LIMIT
  {
    assert Pow36(4) == 1679616;
    assert Pow36(8) == 2821109907456;
    assert Pow36(12) == 4738381338321616896;
    assert Pow36(13) == 170581728179578208256;
  }

  lemma {:induction false} Base36OfPow(n: nat)
    ensures |Base36(Pow36(n))| == n + 1
  {
    if n > 0 {
      assert Pow36(n) / 36 == Pow36(n - 1);
      Base36OfPow(n - 1);
    }
  }

  /** Two counter values that differ only in their last base-36 digit. */
  lemma NeighbourTexts(n: nat)
    requires n > 0
    ensures var a, b := Base36(Pow36(n)), Base36(Pow36(n) + 1);
            |a| == n + 1 == |b| && a[..n] == b[..n]
  {
    Base36OfPow(n);
    var p := Pow36(n);
    var q := Pow36(n - 1);
    assert p == 36 * q;
    assert p / 36 == q && (p + 1) / 36 == q;
    Base36OfPow(n - 1);
    assert Base36(p) == Base36(q) + [Digit(p % 36)];
    assert Base36(p + 1) == Base36(q) + [Digit((p + 1) % 36)];
  }

  /** All ids below the counter's wrap are distinct exactly when the prefix leaves room for
      thirteen digits. */
  lemma IdsDistinctIffPrefixShort(prefix: string)
    ensures |prefix| + BUFFER <= MESSAGE_ID_MAX_LEN <==>
            (forall a, b :: 0 <= a < U64_LIMIT && 0 <= b < U64_LIMIT && a != b
                         ==> IdText(prefix, a) != IdText(prefix, b))
  {
    CounterFitsBuffer();
    if |prefix| + BUFFER <= MESSAGE_ID_MAX_LEN {
      forall a, b | 0 <= a < U64_LIMIT && 0 <= b < U64_LIMIT && a != b
        ensures IdText(prefix, a) != IdText(prefix, b)
      {
        ShortPrefixKeepsIdsApart(prefix, a, b);
      }
    } else {
      LongPrefixCollides(prefix, BUFFER - 1);
    }
  }

  /** A longer prefix cuts the last digit off two neighbouring counter values. */
  lemma LongPrefixCollides(prefix: string, n: nat)
    requires n > 0 && |prefix| + n >= MESSAGE_ID_MAX_LEN
    ensures IdText(prefix, Pow36(n)) == IdText(prefix, Pow36(n) + 1)
  {
    NeighbourTexts(n);
    CutTogether(prefix, Base36(Pow36(n)), Base36(Pow36(n) + 1), n);
  }

  lemma CutTogether(prefix: string, x: string, y: string, n: nat)
    requires |x| == n + 1 == |y| && x[..n] == y[..n]
    requires MESSAGE_ID_MAX_LEN <= |prefix| + n
    ensures Truncating(prefix + x) == Truncating(prefix + y)
  {
    var cut := MESSAGE_ID_MAX_LEN;
    assert prefix + x == (prefix + x[..n]) + x[n..];
    assert prefix + y == (prefix + y[..n]) + y[n..];
    assert (prefix + x)[..cut] == (prefix + x[..n])[..cut];
    assert (prefix + y)[..cut] == (prefix + y[..n])[..cut];
  }

  lemma ShortPrefixKeepsIdsApart(prefix: string, a: nat, b: nat)
    requires |prefix| + BUFFER <= MESSAGE_ID_MAX_LEN
    requires a < U64_LIMIT && b < U64_LIMIT && a != b
    ensures IdText(prefix, a) != IdText(prefix, b)
  {
    CounterFitsBuffer();
    Base36Length(a, BUFFER);
    Base36Length(b, BUFFER);
    if IdText(prefix, a) == IdText(prefix, b) {
      assert Base36(a) == (prefix + Base36(a))[|prefix|..];
      assert Base36(b) == (prefix + Base36(b))[|prefix|..];
      Base36Injective(a, b);
    }
  }

  /** The digit loop of `next_id`. */
  method WriteId(prefix: string, value: nat) returns (id: MessageId)
    requires value < U64_LIMIT
    ensures id == IdText(prefix, value)
  {
    var digits := new char[BUFFER];
    var index := BUFFER;
    var remaining: nat := value;
    CounterFitsBuffer();
    while true
      invariant 1 <= index <= BUFFER
      invariant remaining < Pow36(index)
      invariant Base36(value) == Base36(remaining) + digits[index..]
      modifies digits
      decreases index
    {
      index := index - 1;
      digits[index] := Digit(remaining % 36);
      assert digits[index..] == [Digit(remaining % 36)] + digits[index + 1..];
      ghost var before := remaining;
      remaining := remaining / 36;
      if remaining == 0 {
        assert Base36(before) == [Digit(before % 36)];
        break;
      }
      assert index > 0;
    }
    id := Truncating(prefix + digits[index..]);
  }

  class CounterIds {
    const prefix: string
    var next: nat

    ghost predicate Valid()
      reads this
    {
      next < U64_LIMIT
    }

    constructor (prefix: string)
      ensures Valid() && this.prefix == prefix && next == 0
    {
      this.prefix := prefix;
      next := 0;
    }

    method NextId() returns (id: MessageId)
      requires Valid()
      modifies this
      ensures Valid()
      ensures next == (old(next) + 1) % U64_LIMIT
      ensures id == IdText(prefix, old(next))
    {
      id := WriteId(prefix, next);
      next := (next + 1) % U64_LIMIT;
    }
  }
}
