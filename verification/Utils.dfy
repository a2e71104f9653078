/** The error codes shared by the whole program, and integer powers. */
module Utils {

  /** The members of the program's error enumeration that the modelled functions return. */
  datatype Err =
    | OK
    | OK_WITH_EXIT
    | SERVER_COULD_NOT_CONNECT_NEW_CLIENT
    | SERVER_FAILED_ACCEPT_TCP
    | SERVER_UNKNOWN_COMMAND
    | POLL_FAILED_TIMED_OUT
    | POLL_VEC_INPUT_FD_IDX_OUT_OF_BOUND
    | UDP_UNKNOWN_DATA_TYPE
    | TCP_INPUT_SOCKET_INVALID
    | TCP_INPUT_BUF_LEN_IS_ZERO
    | TCP_FAILED_SEND_RECV
    | CLIENT_VEC_CLIENT_ALREADY_CONNECTED
    | CLIENTS_VEC_INPUT_FD_IDX_INVALID
    | CLIENTS_VEC_CLIENT_ALREADY_DEAD
    | CLIENTS_VEC_CLOSE_CLIENT_NOT_FOUND
    | CLIENTS_VEC_CLIENT_NOT_FOUND
    | CLIENTS_VEC_COUND_NOT_FIND_TOPIC
    | CLIENTS_VEC_INDEX_OUT_OF_BOUND
    | INPUT_WRONG_FORMAT

  const REALLOC_FACTOR := 2

  const TWO_31 := 0x8000_0000
  const TWO_32 := 0x1_0000_0000

  type Uint32 = x: int | 0 <= x < TWO_32
  type Uint8 = x: int | 0 <= x < 256

  /** Conversion to int32_t and to uint32_t: the value modulo 2^32, in the target's range. */
  function ToInt32(x: int): (r: int)
    ensures -TWO_31 <= r < TWO_31 && (r - x) % TWO_32 == 0
  {
    var m := x % TWO_32;
    if m < TWO_31 then m else m - TWO_32
  }

  function ToUint32(x: int): (r: Uint32)
  {
    x % TWO_32
  }

  function Pow(b: nat, e: nat): nat
  {
    if e == 0 then 1 else b * Pow(b, e - 1)
  }

  lemma {:induction false} PowAdd(b: nat, d: nat, e: nat)
    ensures Pow(b, d + e) == Pow(b, d) * Pow(b, e)
  {
    if d > 0 {
      PowAdd(b, d - 1, e);
      assert b * (Pow(b, d - 1) * Pow(b, e)) == (b * Pow(b, d - 1)) * Pow(b, e);
    }
  }

  lemma {:induction false} PowSquare(b: nat, e: nat)
    ensures Pow(b * b, e) == Pow(b, 2 * e)
  {
    if e > 0 {
      PowSquare(b, e - 1);
      assert Pow(b, 2 * e) == b * Pow(b, 2 * e - 1) == b * (b * Pow(b, 2 * e - 2));
    }
  }

  /** Congruence modulo 2^32. */
  predicate Cong(x: int, y: int) {
    (x - y) % TWO_32 == 0
  }

  /** Factors may be replaced by congruent ones. */
  lemma CongMul(x: int, x': int, y: int, y': int)
    requires Cong(x, x') && Cong(y, y')
    ensures Cong(x * y, x' * y')
  {
    var p, q := (x - x') / TWO_32, (y - y') / TWO_32;
    assert x == x' + TWO_32 * p && y == y' + TWO_32 * q;
    var k := x' * q + p * y' + TWO_32 * (p * q);
    calc {
      x * y - x' * y';
      x * (y' + TWO_32 * q) - x' * y';
      x * y' + TWO_32 * (x * q) - x' * y';
      { assert x * y' == x' * y' + TWO_32 * (p * y'); assert x * q == x' * q + TWO_32 * (p * q); }
      TWO_32 * k;
    }
  }

  lemma {:induction false} PowCong(b: nat, b': nat, e: nat)
    requires Cong(b, b')
    ensures Cong(Pow(b, e), Pow(b', e))
  {
    if e > 0 {
      PowCong(b, b', e - 1);
      CongMul(b, b', Pow(b, e - 1), Pow(b', e - 1));
    }
  }

  /** One turn of the square-and-multiply loop keeps acc * base^exp modulo 2^32. */
  lemma IpowStep(acc: int, base: nat, exp: nat, acc': int, base': nat)
    requires exp > 0
    requires Cong(acc', if exp % 2 == 1 then acc * base else acc)
    requires Cong(base', base * base)
    ensures Cong(acc' * Pow(base', exp / 2), acc * Pow(base, exp))
  {
    var a := if exp % 2 == 1 then acc * base else acc;
    PowCong(base', base * base, exp / 2);
    CongMul(acc', a, Pow(base', exp / 2), Pow(base * base, exp / 2));
    PowSquare(base, exp / 2);
    if exp % 2 == 1 {
      assert Pow(base, exp) == base * Pow(base, exp - 1) && exp - 1 == 2 * (exp / 2);
      assert acc * (base * Pow(base, exp - 1)) == (acc * base) * Pow(base, exp - 1);
    } else {
      assert exp == 2 * (exp / 2);
    }
  }

  lemma TurnCong(acc: int, base: Uint32)
    ensures Cong(ToInt32(ToUint32(acc) * base), acc * base)
    ensures Cong((base * base) % TWO_32, base * base)
  {
    CongMul(ToUint32(acc), acc, base, base);
    var x := ToUint32(acc) * base;
    assert Cong(ToInt32(x), x);
    CongTrans(ToInt32(x), x, acc * base);
    CongModulus(base * base);
  }

  lemma CongModulus(x: int)
    ensures Cong(x % TWO_32, x)
  {
  }

  lemma CongTrans(x: int, y: int, z: int)
    requires Cong(x, y) && Cong(y, z)
    ensures Cong(x, z)
  {
  }

  lemma IpowTurnKeeps(acc: int, base: Uint32, exp: Uint8, target: int, acc': int, base': Uint32)
    requires exp > 0 && Cong(acc * Pow(base, exp), target)
    requires acc' == if exp % 2 != 0 then ToInt32(ToUint32(acc) * base) else acc
    requires base' == (base * base) % TWO_32
    ensures Cong(acc' * Pow(base', exp / 2), target)
  {
    TurnCong(acc, base);
    IpowStep(acc, base, exp, acc', base');
    CongTrans(acc' * Pow(base', exp / 2), acc * Pow(base, exp), target);
  }

  lemma IpowDone(acc: int, base: Uint32, target: nat)
    requires Cong(acc * Pow(base, 0), target)
    ensures ToUint32(acc) == target % TWO_32
  {
    assert acc * Pow(base, 0) == acc;
  }

  /** base^exp by squaring, in 32-bit arithmetic with a signed accumulator. */
  method Ipow(base0: Uint32, exp0: Uint8) returns (r: Uint32)
    ensures r == Pow(base0, exp0) % TWO_32
  {
    var baseToExp: int := 1;
    var base: Uint32, exp: Uint8 := base0, exp0;
    ghost var target := Pow(base0, exp0);
    while exp != 0
      invariant Cong(baseToExp * Pow(base, exp), target)
      decreases exp
    {
      ghost var acc, b, e := baseToExp, base, exp;
      if exp % 2 != 0 {
        baseToExp := ToInt32(ToUint32(baseToExp) * base);
      }
      exp := exp / 2;
      base := ToUint32(base * base);
      IpowTurnKeeps(acc, b, e, target, baseToExp, base);
    }
    IpowDone(baseToExp, base, target);
    r := ToUint32(baseToExp);
  }

  lemma TimesAtLeastOne(b: nat, x: nat)
    requires b >= 1
    ensures x <= b * x
  {
  }

  lemma {:induction false} PowMonotone(b: nat, d: nat, e: nat)
    requires b >= 1 && d <= e
    ensures 1 <= Pow(b, d) <= Pow(b, e)
    decreases e
  {
    if d < e {
      PowMonotone(b, d, e - 1);
      TimesAtLeastOne(b, Pow(b, e - 1));
    } else if d > 0 {
      PowMonotone(b, d - 1, e - 1);
      TimesAtLeastOne(b, Pow(b, d - 1));
    }
  }

  lemma Rearrange(a: int, b: int, p: int, q: int)
    ensures (a * b) * (p * q) == (a * p) * (b * q)
  {
    calc {
      (a * b) * (p * q);
      a * (b * (p * q));
      { assert b * (p * q) == p * (b * q); }
      a * (p * (b * q));
    }
  }

  lemma {:induction false} PowProduct(a: nat, b: nat, e: nat)
    ensures Pow(a * b, e) == Pow(a, e) * Pow(b, e)
  {
    if e > 0 {
      PowProduct(a, b, e - 1);
      Rearrange(a, b, Pow(a, e - 1), Pow(b, e - 1));
    }
  }

  lemma PowersOfTen()
    ensures Pow(10, 9) == 1_000_000_000 && Pow(10, 10) == 10_000_000_000
    ensures Pow(2, 32) == TWO_32
  {
    assert Pow(10, 4) == 10000 && Pow(10, 5) == 100000;
    PowAdd(10, 5, 4);
    PowAdd(10, 5, 5);
    assert Pow(2, 8) == 256;
    PowAdd(2, 8, 8);
    PowAdd(2, 16, 16);
  }

  /** The divisor computed for a FLOAT: right exactly up to exponent 9, and zero from exponent 32 on. */
  lemma PowTenIn32Bits(e: nat)
    ensures Pow(10, e) % TWO_32 == Pow(10, e) <==> e <= 9
    ensures e >= 32 ==> Pow(10, e) % TWO_32 == 0
  {
    PowersOfTen();
    if e <= 9 {
      PowMonotone(10, e, 9);
    } else {
      PowMonotone(10, 10, e);
      assert Pow(10, e) % TWO_32 < TWO_32;
    }
    if e >= 32 {
      PowTenMultiple(e);
    }
  }

  lemma MultipleOfTwo32(p: int, q: int)
    ensures ((TWO_32 * p) * q) % TWO_32 == 0
  {
    assert (TWO_32 * p) * q == TWO_32 * (p * q);
  }

  lemma PowTenMultiple(e: nat)
    requires e >= 32
    ensures Pow(10, e) % TWO_32 == 0
  {
    PowersOfTen();
    PowProduct(2, 5, e);
    PowAdd(2, 32, e - 32);
    MultipleOfTwo32(Pow(2, e - 32), Pow(5, e));
  }
}
