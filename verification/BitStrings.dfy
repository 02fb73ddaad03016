/** Numbers as strings of bits, the lowest first, and the operators that work on them bit by bit. */
module BitStrings {
  import opened Bytes

  function Exp2(n: nat): (p: nat)
    ensures p > 0
  {
    if n == 0 then 1 else 2 * Exp2(n - 1)
  }

  /** The n low bits of a number, the lowest first. */
  function Bits(n: nat, v: nat): (b: seq<bool>)
    ensures |b| == n
  {
    if n == 0 then [] else [v % 2 == 1] + Bits(n - 1, v / 2)
  }

  lemma EvenPart(w: nat, r: nat)
    ensures (2 * w + r) % 2 == r % 2 && (2 * w + r) / 2 == w + r / 2
  {
  }

  lemma Residue(p: nat, q: nat, r: nat)
    requires r < p
    ensures (q * p + r) % p == r
  {
    var v := q * p + r;
    var d := v / p;
    if d > q {
      MulMono(q + 1, d, p);
      assert false;
    } else if d < q {
      MulMono(d + 1, q, p);
      assert false;
    }
  }

  lemma Doubled(d: nat, q: nat, p: nat)
    requires d == 2 * p
    ensures d * q == 2 * (q * p)
  {
  }

  lemma DivMod(v: nat, d: nat) returns (q: nat, r: nat)
    requires 0 < d
    ensures v == d * q + r && r < d && r == v % d
  {
    q, r := v / d, v % d;
  }

  /** Halving a remainder. */
  lemma Halves(v: nat, p: nat)
    requires 0 < p
    ensures v % (2 * p) % 2 == v % 2 && v % (2 * p) / 2 == v / 2 % p
  {
    var d := 2 * p;
    var q, r := DivMod(v, d);
    Doubled(d, q, p);
    HalvesOf(q, r, p);
  }

  lemma HalvesOf(q: nat, r: nat, p: nat)
    requires r < 2 * p
    ensures var v := 2 * (q * p) + r; v % 2 == r % 2 && v / 2 % p == r / 2
  {
    EvenPart(q * p, r);
    Residue(p, q, r / 2);
  }

  lemma {:induction false} TopBit(n: nat, v: nat)
    requires v < Exp2(n + 1)
    ensures Bits(n + 1, v) == Bits(n, v % Exp2(n)) + [v >= Exp2(n)]
    decreases n
  {
    if n > 0 {
      TopBit(n - 1, v / 2);
      Halves(v, Exp2(n - 1));
    }
  }

  lemma {:induction false} BitsDetermine(n: nat, v: nat, w: nat)
    requires v < Exp2(n) && w < Exp2(n) && Bits(n, v) == Bits(n, w)
    ensures v == w
  {
    if n > 0 {
      assert Bits(n, v)[0] == Bits(n, w)[0];
      assert Bits(n, v)[1..] == Bits(n - 1, v / 2) && Bits(n, w)[1..] == Bits(n - 1, w / 2);
      BitsDetermine(n - 1, v / 2, w / 2);
    }
  }

  lemma ExpValues()
    ensures Exp2(7) == 0x80 && Exp2(8) == 0x100 && Exp2(15) == 0x8000 && Exp2(16) == 0x1_0000
  {
    assert Exp2(4) == 0x10;
    assert Exp2(8) == 0x100;
    assert Exp2(12) == 0x1000;
  }

  // ---- bitwise operators

  datatype BitOp = AndOp | OrOp | XorOp {
    predicate On(x: bool, y: bool) {
      match this
      case AndOp => x && y
      case OrOp => x || y
      case XorOp => x != y
    }
  }

  /** The number whose n bits are the operator's results on the bits of `a` and `b`. */
  function Combine(op: BitOp, n: nat, a: nat, b: nat): (r: nat)
    ensures r < Exp2(n)
  {
    if n == 0 then 0
    else 2 * Combine(op, n - 1, a / 2, b / 2) + if op.On(a % 2 == 1, b % 2 == 1) then 1 else 0
  }

  lemma {:induction false} CombineBits(op: BitOp, n: nat, a: nat, b: nat, i: nat)
    requires i < n
    ensures Bits(n, Combine(op, n, a, b))[i] == op.On(Bits(n, a)[i], Bits(n, b)[i])
  {
    var rest := Combine(op, n - 1, a / 2, b / 2);
    assert Combine(op, n, a, b) / 2 == rest;
    if i > 0 {
      CombineBits(op, n - 1, a / 2, b / 2, i - 1);
    }
  }

  function BitAnd(a: u16, b: u16): u16 { Combined(AndOp, a, b) }

  function BitOr(a: u16, b: u16): u16 { Combined(OrOp, a, b) }

  function Combined(op: BitOp, a: u16, b: u16): u16 {
    ExpValues();
    Combine(op, 16, a, b)
  }

  /** The bits of `~v`. */
  lemma {:induction false} ComplementBits(n: nat, v: nat, i: nat)
    requires i < n && v < Exp2(n)
    ensures Bits(n, Exp2(n) - 1 - v)[i] == !Bits(n, v)[i]
  {
    ComplementHalves(Exp2(n - 1), v);
    if i > 0 {
      ComplementBits(n - 1, v / 2, i - 1);
    }
  }

  lemma ComplementHalves(e: nat, v: nat)
    requires v < 2 * e
    ensures v / 2 < e && (2 * e - 1 - v) / 2 == e - 1 - v / 2
    ensures (2 * e - 1 - v) % 2 != v % 2
  {
  }

  /** A number of n bits is 0 exactly when it has no bit set. */
  lemma {:induction false} ZeroBits(n: nat, v: nat)
    requires v < Exp2(n)
    ensures v == 0 <==> true !in Bits(n, v)
  {
    if n > 0 {
      ZeroBits(n - 1, v / 2);
      assert Bits(n, v) == [v % 2 == 1] + Bits(n - 1, v / 2);
    }
  }

  /** The n low bits do not depend on what lies above them. */
  lemma {:induction false} BitsOfResidue(n: nat, v: nat)
    ensures Bits(n, v % Exp2(n)) == Bits(n, v)
  {
    if n > 0 {
      Halves(v, Exp2(n - 1));
      BitsOfResidue(n - 1, v / 2);
    }
  }

  /** The low bits of a longer string. */
  lemma {:induction false} BitsPrefix(n: nat, k: nat, v: nat)
    requires k <= n
    ensures Bits(k, v) == Bits(n, v)[..k]
  {
    if k > 0 {
      BitsPrefix(n - 1, k - 1, v / 2);
    }
  }
}
