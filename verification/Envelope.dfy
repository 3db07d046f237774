/** The envelope generator of the AY-3-8910 (libs/v6core/include/core/sound_ay8910.h). */
module Envelope {
  import opened Bytes

  /** The shape bits of register 13 as kept in `ay13`, and the position in the current ramp. */
  datatype Env = Env(att: bool, alt: bool, hold: bool, x: nat)

  predicate Odd(n: nat) { n % 2 == 1 }

  /** Writing register 13 restarts the ramp; without CONT the shape becomes `down, then hold` or `up, then hold at 0`. */
  function Written(v: byte): (e: Env)
  {
    if v / 4 % 4 == 0 then Env(false, false, true, 0)
    else if v / 4 % 4 == 1 then Env(true, true, true, 0)
    else Env(Odd(v / 4), Odd(v / 2), Odd(v), 0)
  }

  function EStep(e: Env): (r: (Env, int))
  {
    if e.x >= 16 && e.hold then (e, if e.att != e.alt then 15 else 0)
    else
      var e1 := if e.x >= 16 then e.(x := 0, att := e.att != e.alt) else e;
      (e1.(x := e1.x + 1), if e1.att then e1.x else 15 - e1.x)
  }

  /** The generator after `k` steps, and the value the k-th further step returns. */
  function After(e: Env, k: nat): (r: Env) { if k == 0 then e else EStep(After(e, k - 1)).0 }

  function Level(e: Env, k: nat): (v: int) { EStep(After(e, k)).1 }

  /** The shape as a function of time: ramps of sixteen steps, alternating if ALT, held after the first if HOLD. */
  function Shape(att: bool, alt: bool, hold: bool, k: nat): (v: nat)
    ensures v <= 15
  {
    if hold && k >= 16 then (if att != alt then 15 else 0)
    else
      var rising := att != (alt && Odd(k / 16));
      if rising then k % 16 else 15 - k % 16
  }

  /** The state before step k, with k - 1 in ramp `q` at place `r`. */
  lemma {:induction false} StateAfter(e: Env, k: nat, q: nat, r: nat)
    requires e.x == 0 && k == 16 * q + r + 1 && r < 16
    ensures After(e, k) == if e.hold && k > 16 then e.(x := 16) else e.(x := r + 1, att := e.att != (e.alt && Odd(q)))
    decreases k
  {
    if k > 1 {
      var q', r' := if r > 0 then q else q - 1, if r > 0 then r - 1 else 15;
      StateAfter(e, k - 1, q', r');
      assert q > q' ==> Odd(q) != Odd(q');
    } else {
      assert After(e, 0) == e;
    }
  }

  lemma LevelIsShape(e: Env, k: nat)
    requires e.x == 0
    ensures Level(e, k) == Shape(e.att, e.alt, e.hold, k)
  {
    if k > 0 {
      var q, r := (k - 1) / 16, (k - 1) % 16;
      StateAfter(e, k, q, r);
      if r == 15 {
        assert k == 16 * (q + 1);
        assert k / 16 == q + 1 && k % 16 == 0 && Odd(q + 1) != Odd(q);
      } else {
        assert k / 16 == q && k % 16 == r + 1;
      }
    }
  }

  /** For every value written to register 13 and every k, the k-th step after the write: without CONT (bit 3) one ramp, up
      if ATTACK (bit 2), and then 0; with it ramps of sixteen steps, every other one turned round by ALTERNATE (bit 1), and
      with HOLD (bit 0) the end level of the first for ever. */
  lemma EnvelopeShape(v: byte, k: nat)
    ensures var level := Level(Written(v), k);
            && 0 <= level <= 15
            && level == if !Bit(v, 3) then (if k >= 16 then 0 else if Bit(v, 2) then k else 15 - k)
                        else if Bit(v, 0) && k >= 16 then (if Bit(v, 2) != Bit(v, 1) then 15 else 0)
                        else if Bit(v, 2) != (Bit(v, 1) && k / 16 % 2 == 1) then k % 16 else 15 - k % 16
  {
    WrittenBits(v);
    LevelIsShape(Written(v), k);
    hide Bit, Written, Level, Odd;
    assert Odd(k / 16) <==> k / 16 % 2 == 1 by { OddMeans(k / 16); }
    if k < 16 { OddMeans(k / 16); }
  }

  lemma OddMeans(n: nat)
    ensures Odd(n) <==> n % 2 == 1
  {
  }

  lemma WrittenBits(v: byte)
    ensures Written(v) == if Bit(v, 3) then Env(Bit(v, 2), Bit(v, 1), Bit(v, 0), 0) else Env(Bit(v, 2), Bit(v, 2), true, 0)
  {
    hide Bit;
    ByteBits(v);
    ShapeField(v / 4);
    assert v / 4 / 2 == v / 8;
  }

  lemma ShapeField(n: nat)
    ensures n % 4 == n % 2 + 2 * (n / 2 % 2)
  {
    Quotient(n, 4, n / 2 / 2, 2 * (n / 2 % 2) + n % 2);
  }

  /** Exclusive-or with bit 2. */
  lemma Toggle(a: nat)
    ensures Odd(a / 4) ==> a >= 4
    ensures var b := if Odd(a / 4) then a - 4 else a + 4;
            b >= 0 && Odd(b / 4) != Odd(a / 4) && Odd(b / 2) == Odd(a / 2) && Odd(b) == Odd(a)
  {
    var q, r := a / 4, a % 4;
    var q' := if Odd(q) then q - 1 else q + 1;
    var b := if Odd(q) then a - 4 else a + 4;
    Quotient(b, 4, q', r);
    Quotient(a, 2, 2 * q + r / 2, r % 2);
    Quotient(b, 2, 2 * q' + r / 2, r % 2);
    OddOf(2 * q + r / 2, q, r / 2);
    OddOf(2 * q' + r / 2, q', r / 2);
    OddNext(q, q');
  }

  lemma OddOf(n: nat, q: nat, r: nat)
    requires n == 2 * q + r && r < 2
    ensures Odd(n) == (r == 1)
  {
    Quotient(n, 2, q, r);
  }

  lemma OddNext(q: nat, q': int)
    requires q' == if Odd(q) then q - 1 else q + 1
    ensures q' >= 0 && Odd(q') != Odd(q)
  {
    Quotient(q', 2, q / 2, if Odd(q) then 0 else 1);
  }

  /** The envelope part of class SoundAY8910, in place. */
  class Generator {
    const ayr: array<int>
    var ayreg: nat
    var envx: nat
    var ay13: nat

    constructor ()
      ensures Valid() && fresh(ayr) && View() == Env(false, false, false, 0)
    {
      ayr := new int[19](_ => 0);
      ayreg, envx, ay13 := 0, 0, 0;
    }

    ghost predicate Valid()
      reads this
    {
      ayr.Length == 19 && ayreg < 16
    }

    ghost function View(): (e: Env)
      reads this
    {
      Env(Odd(ay13 / 4), Odd(ay13 / 2), Odd(ay13), envx)
    }

    method Select(v: byte)
      requires Valid()
      modifies `ayreg
      ensures Valid() && ayreg == v % 16
    {
      ayreg := v % 16;
    }

    /** A data write; register 13 also restarts the envelope. */
    method Put(v: byte)
      requires Valid()
      modifies ayr, `envx, `ay13
      ensures Valid() && View() == (if ayreg == 13 then Written(v) else old(View()))
      ensures ayr[ayreg] == v % (if ayreg == 1 || ayreg == 3 || ayreg == 5 || ayreg == 13 then 16
                                 else if ayreg == 6 || 8 <= ayreg <= 10 then 32 else 256)
      ensures forall i :: 0 <= i < 19 && i != ayreg ==> ayr[i] == old(ayr[i])
    {
      ayr[ayreg] := v % (if ayreg == 1 || ayreg == 3 || ayreg == 5 || ayreg == 13 then 16
                         else if ayreg == 6 || 8 <= ayreg <= 10 then 32 else 256);
      if ayreg == 13 {
        envx := 0;
        ay13 := if v / 4 % 4 == 0 then 9 else if v / 4 % 4 == 1 then 15 else v;
      }
    }

    method Step() returns (r: int)
      requires Valid()
      modifies `envx, `ay13
      ensures Valid() && (View(), r) == EStep(old(View()))
    {
      hide Odd;
      if envx >= 16 {
        if Odd(ay13) {
          r := if Odd(ay13 / 4) != Odd(ay13 / 2) then 15 else 0;
          return;
        }
        envx := 0;
        if Odd(ay13 / 2) {
          Toggle(ay13);
          ay13 := if Odd(ay13 / 4) then ay13 - 4 else ay13 + 4;
        }
      }
      r := if Odd(ay13 / 4) then envx else 15 - envx;
      envx := envx + 1;
    }
  }
}
