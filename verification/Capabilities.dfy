/** Opaque capability tokens: a counter is sent through a keyed mixing function on 31-bit
    numbers. The mixing function is a permutation, so no token is ever handed out twice. */
module Capabilities {
  import opened Options

  const BITS: nat := 31
  const SPACE: nat := 0x8000_0000

  // ---------------------------------------------------------------- bits of natural numbers

  function Pow2(k: nat): (p: nat)
    ensures p >= 1
  {
    if k == 0 then 1 else 2 * Pow2(k - 1)
  }

  /** Exclusive or, bit by bit. */
  function Xor(a: nat, b: nat): nat {
    if a == 0 && b == 0 then 0 else (a % 2 + b % 2) % 2 + 2 * Xor(a / 2, b / 2)
  }

  function ShiftRight(a: nat, k: nat): nat {
    if k == 0 then a else ShiftRight(a / 2, k - 1)
  }

  lemma {:induction false} XorSelf(a: nat)
    ensures Xor(a, a) == 0
  {
    if a != 0 { XorSelf(a / 2); }
  }

  lemma {:induction false} XorZero(a: nat)
    ensures Xor(a, 0) == a && Xor(0, a) == a
  {
    if a != 0 { XorZero(a / 2); }
  }

  function Low(a: nat): (b: nat)
    ensures b < 2
  {
    a % 2
  }

  function High(a: nat): nat { a / 2 }

  lemma XorStep(a: nat, b: nat)
    ensures Low(Xor(a, b)) == Low(Low(a) + Low(b)) && High(Xor(a, b)) == Xor(High(a), High(b))
  {
  }

  lemma LowAssociates(a: nat, b: nat, c: nat)
    ensures Low(Low(Low(a) + Low(b)) + Low(c)) == Low(Low(a) + Low(Low(b) + Low(c)))
  {
    var x, y, z := Low(a), Low(b), Low(c);
    hide Low;
    LowOfBits(x, y, z);
  }

  lemma LowOfBits(x: nat, y: nat, z: nat)
    requires x < 2 && y < 2 && z < 2
    ensures Low(Low(x + y) + z) == Low(x + Low(y + z))
  {
  }

  lemma SameBits(a: nat, b: nat)
    requires Low(a) == Low(b) && High(a) == High(b)
    ensures a == b
  {
  }

  lemma AssociateStep(a: nat, b: nat, c: nat)
    requires Xor(Xor(High(a), High(b)), High(c)) == Xor(High(a), Xor(High(b), High(c)))
    ensures Xor(Xor(a, b), c) == Xor(a, Xor(b, c))
  {
    hide Xor, Low, High;
    XorStep(a, b);
    XorStep(b, c);
    XorStep(Xor(a, b), c);
    XorStep(a, Xor(b, c));
    LowAssociates(a, b, c);
    SameBits(Xor(Xor(a, b), c), Xor(a, Xor(b, c)));
  }

  lemma {:induction false} XorAssociates(a: nat, b: nat, c: nat)
    ensures Xor(Xor(a, b), c) == Xor(a, Xor(b, c))
    decreases a + b
  {
    if a == 0 && b == 0 {
      XorZero(c);
    } else {
      hide Xor;
      XorAssociates(High(a), High(b), High(c));
      AssociateStep(a, b, c);
    }
  }

  lemma {:induction false} XorFits(a: nat, b: nat, k: nat)
    requires a < Pow2(k) && b < Pow2(k)
    ensures Xor(a, b) < Pow2(k)
  {
    if k > 0 { XorFits(a / 2, b / 2, k - 1); }
  }

  lemma {:induction false} XorShifts(a: nat, b: nat, k: nat)
    ensures ShiftRight(Xor(a, b), k) == Xor(ShiftRight(a, k), ShiftRight(b, k))
  {
    if k > 0 { XorShifts(a / 2, b / 2, k - 1); }
  }

  lemma {:induction false} ShiftTwice(a: nat, j: nat, k: nat)
    ensures ShiftRight(ShiftRight(a, j), k) == ShiftRight(a, j + k)
  {
    if j > 0 { ShiftTwice(a / 2, j - 1, k); }
  }

  lemma {:induction false} ShiftFits(a: nat, j: nat, k: nat)
    requires a < Pow2(k)
    ensures ShiftRight(a, j) < Pow2(k) && (j >= k ==> ShiftRight(a, j) == 0)
  {
    if j > 0 && k > 0 {
      ShiftFits(a / 2, j - 1, k - 1);
    } else if j > 0 {
      ShiftFits(0, j - 1, 0);
    }
  }

  /** What is xored twice with the same number is unchanged. */
  lemma XorUndone(a: nat, b: nat)
    ensures Xor(Xor(a, b), b) == a
  {
    XorAssociates(a, b, b);
    XorSelf(b);
    XorZero(a);
  }

  lemma SpaceIsPow2()
    ensures Pow2(BITS) == SPACE
  {
    assert Pow2(10) == 1024;
    assert Pow2(20) == 1024 * Pow2(10);
    assert Pow2(30) == 1024 * Pow2(20);
  }

  // ---------------------------------------------------------------- the steps and their inverses

  function XorShift(x: nat, k: nat): nat {
    Xor(x, ShiftRight(x, k))
  }

  /** Undoes an xor-shift by `k` of numbers of at most `3 * k` bits. */
  function UnXorShift(y: nat, k: nat): nat {
    Xor(XorShift(y, k), ShiftRight(y, 2 * k))
  }

  lemma XorShiftFits(x: nat, k: nat)
    requires x < SPACE
    ensures XorShift(x, k) < SPACE && UnXorShift(x, k) < SPACE
  {
    SpaceIsPow2();
    ShiftFits(x, k, BITS);
    ShiftFits(x, 2 * k, BITS);
    XorFits(x, ShiftRight(x, k), BITS);
    XorFits(XorShift(x, k), ShiftRight(x, 2 * k), BITS);
  }

  /** Four terms cancel in pairs. */
  lemma XorTelescopes(a: nat, b: nat, c: nat)
    ensures Xor(Xor(Xor(a, b), Xor(b, c)), c) == a
  {
    XorAssociates(Xor(a, b), Xor(b, c), c);
    XorUndone(b, c);
    XorUndone(a, b);
  }

  /** An xor-shift by at least a third of the width is undone, on either side. */
  lemma XorShiftUndone(x: nat, k: nat)
    requires x < SPACE && 3 * k >= BITS
    ensures UnXorShift(XorShift(x, k), k) == x
    ensures XorShift(UnXorShift(x, k), k) == x
  {
    SpaceIsPow2();
    var a, b := ShiftRight(x, k), ShiftRight(x, 2 * k);
    ShiftTwice(x, k, k);
    ShiftTwice(x, 2 * k, k);
    ShiftTwice(x, k, 2 * k);
    ShiftFits(x, 3 * k, BITS);
    XorZero(b);
    XorShifts(x, a, k);
    XorShifts(x, a, 2 * k);
    XorTelescopes(x, a, b);
    XorShifts(Xor(x, a), b, k);
    Rotate(x, a, b);
  }

  lemma Rotate(x: nat, a: nat, b: nat)
    ensures Xor(Xor(Xor(x, a), b), Xor(Xor(a, b), 0)) == x
  {
    XorZero(Xor(a, b));
    XorAssociates(x, a, b);
    XorUndone(x, Xor(a, b));
  }

  function Multiply(x: nat, m: nat): nat {
    (x * m) % SPACE
  }

  /** The inverse of the odd number `m` modulo the `k`-th power of two. */
  function OddInverse(m: nat, k: nat): nat
    requires m % 2 == 1
  {
    if k == 0 then 0
    else
      var i := OddInverse(m, k - 1);
      if (m * i) % Pow2(k) == 1 % Pow2(k) then i else i + Pow2(k - 1)
  }

  lemma AddMultiple(a: int, q: int, n: nat)
    requires n > 0
    ensures (a + q * n) % n == a % n
  {
    var r := a % n;
    var p := a / n;
    assert a == p * n + r;
    assert a + q * n == (p + q) * n + r by { Distribute(p, q, n); }
    Remainder(a + q * n, p + q, r, n);
  }

  lemma Distribute(p: int, q: int, n: int)
    ensures (p + q) * n == p * n + q * n
  {
  }

  lemma Remainder(a: int, q: int, r: int, n: nat)
    requires n > 0 && a == q * n + r && 0 <= r < n
    ensures a % n == r
  {
    var d := a / n - q;
    assert a == (a / n) * n + a % n;
    assert (a / n) * n == q * n + d * n by { Distribute(q, d, n); }
    assert d * n == r - a % n;
    if d >= 1 { Grows(d, n); } else if d <= -1 { Grows(-d, n); }
  }

  lemma Grows(d: int, n: nat)
    requires d >= 1
    ensures d * n >= n && (-d) * n <= -(n as int)
  {
  }

  lemma OddInverseNext(m: nat, k: nat)
    requires m % 2 == 1 && k > 0
    ensures Pow2(k) == 2 * Pow2(k - 1) && Pow2(k - 1) >= 1
    ensures var i := OddInverse(m, k - 1); OddInverse(m, k) == if (m * i) % Pow2(k) == 1 % Pow2(k) then i else i + Pow2(k - 1)
  {
  }

  lemma {:induction false} OddInverseInverts(m: nat, k: nat)
    requires m % 2 == 1
    ensures (m * OddInverse(m, k)) % Pow2(k) == 1 % Pow2(k)
  {
    if k > 0 {
      OddInverseNext(m, k);
      hide OddInverse, Pow2;
      var i := OddInverse(m, k - 1);
      var p := Pow2(k - 1);
      OddInverseInverts(m, k - 1);
      if (m * i) % Pow2(k) != 1 % Pow2(k) {
        assert m * (i + p) == m * i + m * p by { Distribute(i, p, m); }
        LiftsInverse(m, m * i, p);
      }
    }
  }

  lemma Odd(n: nat, p: nat) returns (h: nat)
    requires n % 2 == 1
    ensures n == 2 * h + 1 && n * p == h * (2 * p) + p
  {
    h := n / 2;
    Distribute(2 * h, 1, p);
    assert (2 * h) * p == h * (2 * p);
  }

  lemma Even(n: nat, p: nat) returns (h: nat)
    requires n % 2 == 0
    ensures n == 2 * h && n * p == h * (2 * p)
  {
    h := n / 2;
    assert (2 * h) * p == h * (2 * p);
  }

  /** What is one modulo `p` but not modulo `2 * p` becomes so by adding an odd multiple of `p`. */
  lemma LiftsInverse(m: nat, n: nat, p: nat)
    requires m % 2 == 1 && p >= 1 && n % p == 1 % p && n % (2 * p) != 1 % (2 * p)
    ensures (n + m * p) % (2 * p) == 1 % (2 * p)
  {
    if p == 1 {
      assert m * p == m && 2 * p == 2;
      OddPlusEven(m, n);
    } else {
      assert 1 % p == 1 && 1 % (2 * p) == 1;
      Lifts(m, n, p);
    }
  }

  lemma OddPlusEven(m: nat, n: nat)
    requires m % 2 == 1 && n % 2 != 1
    ensures (n + m) % 2 == 1
  {
  }

  lemma Quotient(n: nat, p: nat) returns (c: nat)
    requires p > 1 && n % p == 1
    ensures n == c * p + 1
  {
    c := n / p;
  }

  lemma Lifts(m: nat, n: nat, p: nat)
    requires m % 2 == 1 && p > 1 && n % p == 1 && n % (2 * p) != 1
    ensures (n + m * p) % (2 * p) == 1
  {
    var c := Quotient(n, p);
    var h := Odd(m, p);
    if c % 2 == 0 {
      var e := Even(c, p);
      Remainder(n, e, 1, 2 * p);
      assert false;
    } else {
      var e := Odd(c, p);
      LiftedSum(e, h, p, n, m * p);
      Remainder(n + m * p, e + h + 1, 1, 2 * p);
    }
  }

  lemma LiftedSum(e: nat, h: nat, p: nat, x: int, y: int)
    requires x == e * (2 * p) + p + 1 && y == h * (2 * p) + p
    ensures x + y == 1 + (e + h + 1) * (2 * p)
  {
    Distribute(e, h, 2 * p);
    Distribute(e + h, 1, 2 * p);
  }

  lemma MultiplyTwice(x: nat, m: nat, i: nat)
    ensures Multiply(Multiply(x, m), i) == (x * (m * i)) % SPACE
  {
    var q := x * m / SPACE;
    assert x * m == q * SPACE + Multiply(x, m);
    assert (x * m) * i == Multiply(x, m) * i + (q * i) * SPACE by {
      Distribute(q * SPACE, Multiply(x, m), i);
      assert (q * SPACE) * i == (q * i) * SPACE;
    }
    AddMultiple(Multiply(x, m) * i, q * i, SPACE);
    assert (x * m) * i == x * (m * i);
  }

  lemma NextToMultiple(x: nat, p: nat)
    requires p % SPACE == 1
    ensures (x * p) % SPACE == x % SPACE
  {
    var q := p / SPACE;
    assert p == q * SPACE + 1;
    assert x * p == x + (x * q) * SPACE by { Spread(x, q, SPACE); }
    AddMultiple(x, x * q, SPACE);
  }

  lemma Spread(x: int, q: int, n: int)
    ensures x * (q * n + 1) == x + (x * q) * n
  {
    Distribute(q * n, 1, x);
    assert (q * n) * x == (x * q) * n;
  }

  /** Multiplying by an odd number and by its inverse gives the number back. */
  lemma MultiplyUndone(x: nat, m: nat, i: nat)
    requires x < SPACE && (m * i) % SPACE == 1
    ensures Multiply(Multiply(x, m), i) == x
  {
    MultiplyTwice(x, m, i);
    NextToMultiple(x, m * i);
  }

  // ---------------------------------------------------------------- mixing

  datatype Keys = Keys(xor: nat, first: nat, second: nat)

  /** What the random keys are: 31-bit numbers, the multipliers odd. */
  predicate ValidKeys(k: Keys) {
    k.xor < SPACE && k.first < SPACE && k.second < SPACE && k.first % 2 == 1 && k.second % 2 == 1
  }

  function Mix(input: nat, k: Keys): (token: nat)
  {
    var a := Xor(input, k.xor) % SPACE;
    var b := XorShift(a, 16);
    var c := Multiply(b, k.first);
    var d := XorShift(c, 13);
    var e := Multiply(d, k.second);
    XorShift(e, 16) % SPACE
  }

  function Unmix(token: nat, k: Keys): nat
    requires ValidKeys(k)
  {
    var e := UnXorShift(token, 16);
    var d := Multiply(e, OddInverse(k.second, BITS));
    var c := UnXorShift(d, 13);
    var b := Multiply(c, OddInverse(k.first, BITS));
    Xor(UnXorShift(b, 16), k.xor)
  }

  lemma KeysInvert(m: nat)
    requires m % 2 == 1
    ensures (m * OddInverse(m, BITS)) % SPACE == 1 && (OddInverse(m, BITS) * m) % SPACE == 1
  {
    hide OddInverse, Pow2;
    SpaceIsPow2();
    OddInverseInverts(m, BITS);
    var i := OddInverse(m, BITS);
    assert (m * i) % SPACE == 1 % SPACE;
    assert i * m == m * i;
  }

  lemma Fits(a: nat, b: nat)
    requires a < SPACE && b < SPACE
    ensures Xor(a, b) < SPACE
  {
    SpaceIsPow2();
    XorFits(a, b, BITS);
  }

  /** Mixing is a permutation of the 31-bit numbers, whatever the keys: it has an inverse. */
  lemma MixIsPermutation(x: nat, k: Keys)
    requires ValidKeys(k) && x < SPACE
    ensures Mix(x, k) < SPACE && Unmix(Mix(x, k), k) == x
    ensures Unmix(x, k) < SPACE && Mix(Unmix(x, k), k) == x
  {
    hide Xor, XorShift, UnXorShift, Multiply, OddInverse;
    MixUndone(x, k);
    UnmixUndone(x, k);
  }

  /** One round: an xor-shift and an odd multiplication. */
  lemma RoundUndone(x: nat, k: nat, m: nat)
    requires x < SPACE && 3 * k >= BITS && m % 2 == 1
    ensures var y := Multiply(XorShift(x, k), m);
            y < SPACE && UnXorShift(Multiply(y, OddInverse(m, BITS)), k) == x
    ensures var y := UnXorShift(Multiply(x, OddInverse(m, BITS)), k);
            y < SPACE && Multiply(XorShift(y, k), m) == x
  {
    hide Xor, XorShift, UnXorShift, OddInverse;
    var i := OddInverse(m, BITS);
    KeysInvert(m);
    XorShiftFits(x, k);
    XorShiftUndone(x, k);
    MultiplyUndone(XorShift(x, k), m, i);
    var y := Multiply(x, i);
    MultiplyUndone(x, i, m);
    XorShiftFits(y, k);
    XorShiftUndone(y, k);
  }

  lemma MixUndone(x: nat, k: Keys)
    requires ValidKeys(k) && x < SPACE
    ensures Mix(x, k) < SPACE && Unmix(Mix(x, k), k) == x
  {
    hide Xor, XorShift, UnXorShift, OddInverse, Multiply;
    Fits(x, k.xor);
    XorUndone(x, k.xor);
    var a := Xor(x, k.xor);
    RoundUndone(a, 16, k.first);
    var c := Multiply(XorShift(a, 16), k.first);
    RoundUndone(c, 13, k.second);
    var e := Multiply(XorShift(c, 13), k.second);
    XorShiftFits(e, 16);
    XorShiftUndone(e, 16);
  }

  lemma UnmixUndone(y: nat, k: Keys)
    requires ValidKeys(k) && y < SPACE
    ensures Unmix(y, k) < SPACE && Mix(Unmix(y, k), k) == y
  {
    hide Xor, XorShift, UnXorShift, OddInverse, Multiply;
    var e := UnXorShift(y, 16);
    XorShiftFits(y, 16);
    XorShiftUndone(y, 16);
    RoundUndone(e, 13, k.second);
    var c := UnXorShift(Multiply(e, OddInverse(k.second, BITS)), 13);
    RoundUndone(c, 16, k.first);
    var a := UnXorShift(Multiply(c, OddInverse(k.first, BITS)), 16);
    Fits(a, k.xor);
    XorUndone(a, k.xor);
  }

  lemma MixIsInjective(x: nat, y: nat, k: Keys)
    requires ValidKeys(k) && x < SPACE && y < SPACE && Mix(x, k) == Mix(y, k)
    ensures x == y
  {
    hide Mix, Unmix;
    MixIsPermutation(x, k);
    MixIsPermutation(y, k);
  }

  /** The one input that is mixed to zero, and is therefore skipped, is the xor key itself. */
  lemma ZeroComesFromTheKey(x: nat, k: Keys)
    requires ValidKeys(k) && x < SPACE
    ensures Mix(x, k) == 0 <==> x == k.xor
  {
    hide Unmix, Multiply, XorShift;
    XorSelf(k.xor);
    ZeroStays(k);
    if Mix(x, k) == 0 { MixIsInjective(x, k.xor, k); }
  }

  lemma ZeroStays(k: Keys)
    ensures XorShift(0, 16) == 0 && XorShift(0, 13) == 0 && Multiply(0, k.first) == 0 && Multiply(0, k.second) == 0
  {
    ShiftFits(0, 16, 0);
    ShiftFits(0, 13, 0);
    XorZero(0);
  }

  // ---------------------------------------------------------------- allocating

  datatype AllocationError = Exhausted

  /** Allocates the tokens of every registry and task table in a process. */
  class CapabilityAllocator {
    const keys: Keys
    var nextInput: nat
    ghost var issued: seq<nat>

    /** The inputs below `nextInput`, except the skipped one, have become tokens. */
    ghost predicate Valid()
      reads this
    {
      && ValidKeys(keys)
      && 1 <= nextInput <= SPACE
      && (forall t :: t in issued ==> 0 < t < SPACE && 1 <= Unmix(t, keys) < nextInput && Mix(Unmix(t, keys), keys) == t)
      && (forall i, j :: 0 <= i < j < |issued| ==> issued[i] != issued[j])
      && |issued| == nextInput - 1 - (if 1 <= keys.xor < nextInput then 1 else 0)
    }

    constructor (keys: Keys)
      requires ValidKeys(keys)
      ensures Valid() && issued == [] && this.keys == keys
    {
      this.keys := keys;
      nextInput := 1;
      issued := [];
    }

    /** A token that was never issued before, unless all are gone: then all tokens but zero and,
        when the xor key is not zero, what zero would be mixed to, have been issued. */
    method Allocate() returns (r: Result<nat, AllocationError>)
      requires Valid()
      modifies this
      ensures Valid()
      ensures r.Ok? ==> 0 < r.value < SPACE && r.value !in old(issued) && issued == old(issued) + [r.value]
      ensures r.Err? ==> issued == old(issued)
      ensures r.Err? <==> |old(issued)| == SPACE - (if keys.xor == 0 then 1 else 2)
    {
      hide Mix, Unmix;
      while nextInput < SPACE
        invariant Valid() && issued == old(issued)
        invariant nextInput == old(nextInput) || keys.xor == old(nextInput) == nextInput - 1
      {
        ghost var input := nextInput;
        var token := Mix(nextInput, keys);
        MixIsPermutation(input, keys);
        ZeroComesFromTheKey(input, keys);
        nextInput := nextInput + 1;
        if token != 0 {
          assert token !in issued;
          issued := issued + [token];
          return Ok(token);
        }
      }
      return Err(Exhausted);
    }
  }
}
