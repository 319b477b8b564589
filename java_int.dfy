/** Java's 32-bit `int`: the range of the type and the wrap-around of its
    addition and multiplication, which the chart's pixel arithmetic uses. */
module JavaInt {

  const MinInt32: int := -0x8000_0000
  const MaxInt32: int := 0x7fff_ffff
  const Modulus: int := 0x1_0000_0000

  predicate IsInt32(v: int) {
    MinInt32 <= v <= MaxInt32
  }

  /** The Java `int` that the mathematical value `v` becomes: the one value
      of the type that is congruent to `v` modulo 2^32. */
  function Wrap32(v: int): (r: int)
    ensures IsInt32(r)
    ensures IsInt32(v) ==> r == v
    ensures (v - r) % Modulus == 0
  {
    (v + 0x8000_0000) % Modulus - 0x8000_0000
  }

  /** Two Java ints that agree modulo 2^32 are the same int. */
  lemma CongruentInt32Equal(a: int, b: int)
    requires IsInt32(a) && IsInt32(b)
    requires (a - b) % Modulus == 0
    ensures a == b
  {
    var d := a - b;
    assert -Modulus < d < Modulus;
    assert d == Modulus * (d / Modulus);
  }

  /** Wrapping an intermediate result before a further addition changes
      nothing: a chain of Java `+` is the exact sum, wrapped once. */
  lemma {:induction false} WrapThenAdd(a: int, b: int)
    ensures Wrap32(Wrap32(a) + b) == Wrap32(a + b)
  {
    var w := Wrap32(a);
    var k := (a - w) / Modulus;
    assert a - w == Modulus * k;
    var l := Wrap32(w + b);
    var m := Wrap32(a + b);
    var p := (w + b - l) / Modulus;
    var q := (a + b - m) / Modulus;
    assert w + b - l == Modulus * p;
    assert a + b - m == Modulus * q;
    assert l - m == Modulus * (q - p - k);
    ModulusMultiple(q - p - k);
    CongruentInt32Equal(l, m);
  }

  lemma ModulusMultiple(n: int)
    ensures (Modulus * n) % Modulus == 0
  {
  }
}
