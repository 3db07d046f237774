/** One counter of the 8253 timer (libs/v6core/src/timer_i8253.cpp): the square wave of mode 3. */
module Timer {
  import opened Bytes

  const LATCH_DELAY := 1

  datatype Counter = Counter(
    value: int, load: word, mode: int, out: int, delay: nat, armed: bool, loaded: bool, enabled: bool, bcd: bool,
    latchMode: int, latchValue: int, writeState: nat, lsb: byte)

  function Reload(c: Counter, zero: int, extra: int): (r: int)
  {
    if c.load == 0 then (if c.bcd then 10000 else zero) else c.load + extra
  }

  /** Mode 0, interrupt on terminal count; the second result is what Clock returns. */
  function Terminal(c: Counter, cycles: nat): (r: (Counter, int))
  {
    var c1 := if c.loaded then c.(value := c.load, enabled := true, armed := true, out := 0) else c;
    var v := c1.value - cycles;
    if !c1.enabled then (c1, c.out)
    else if v > 0 then (c1.(value := v), c1.out)
    else
      var c2 := if c1.armed then c1.(out := if c1.value != 0 then 1 else c1.out, armed := false) else c1;
      (c2.(value := v + if c.bcd then 10000 else 65536), if c1.armed then -v + 1 else c1.out)
  }

  /** Modes 1 and 2 count down and reload; mode 1 keeps its old count when loaded. */
  function Periodic(c: Counter, cycles: nat): (r: Counter)
  {
    var c1 := if !c.enabled && c.loaded then c.(value := if c.mode == 2 then c.load else c.value, enabled := true) else c;
    var v := c1.value - cycles;
    if !c1.enabled then c1
    else c1.(value := if v > 0 then v else v + Reload(c, 0x10000, if c.mode == 1 then 1 else 0))
  }

  /** Mode 3 steps by two; an odd count is made up by a first step of one while high and of three while low. */
  function Square(c: Counter): (r: Counter)
  {
    var c1 := if !c.enabled && c.loaded then c.(value := c.load, enabled := true) else c;
    var step := if c1.value == c1.load && c1.value % 2 == 1 then (if c1.out == 0 then 3 else 1) else 2;
    var v := c1.value - step;
    if !c1.enabled then c1
    else if v > 0 then c1.(value := v)
    else c1.(out := if c1.out == 0 then 1 else 0, value := v + Reload(c, 0x10000, 0))
  }

  function Clock(c: Counter, cycles: nat): (r: (Counter, int))
  {
    if c.delay > 0 then (c.(delay := c.delay - 1), c.out)
    else if cycles == 0 || (!c.enabled && !c.loaded) then (c, c.out)
    else
      var (c', result) :=
        if c.mode == 0 then Terminal(c, cycles)
        else if c.mode == 1 || c.mode == 2 then (Periodic(c, cycles), c.out)
        else if c.mode == 3 then (Square(c), Square(c).out)
        else (c, c.out);
      (c'.(loaded := false), result)
  }

  function SetMode(c: Counter, mode: nat, latchMode: int, bcd: bool): (r: Counter)
  {
    Restarted(Clock(c, LATCH_DELAY).0, if mode % 4 == 2 then 2 else if mode % 4 == 3 then 3 else mode, latchMode, bcd)
  }

  /** A stopped counter in mode `m` that waits for its count. */
  function Restarted(c1: Counter, m: nat, latchMode: int, bcd: bool): (r: Counter)
  {
    c1.(delay := LATCH_DELAY, bcd := bcd, mode := m, out := if m == 0 then 0 else 1, enabled := false,
        armed := if m == 0 || m == 1 then true else c1.armed, loaded := false, latchMode := latchMode, writeState := 0)
  }

  function Digit(d: nat): (r: nat) { if d > 9 then 9 else d }

  function FromBcd(x: word): (r: word)
  {
    1000 * Digit(x / 0x1000) + 100 * Digit(x / 0x100 % 16) + 10 * Digit(x / 0x10 % 16) + Digit(x % 16)
  }

  function ToBcd(x: nat): (r: word)
  {
    var q1 := x / 10;
    var q2 := q1 / 10;
    var q3 := q2 / 10;
    0x1000 * (q3 % 10) + 0x100 * (q2 % 10) + 0x10 * (q1 % 10) + x % 10
  }

  /** One byte of a count, as the latch mode says. */
  function Loaded(c: Counter, w: byte): (r: Counter)
  {
    if c.latchMode == 3 then
      if c.writeState == 0 then c.(lsb := w, writeState := 1)
      else if c.writeState == 1 then c.(writeState := 0, load := Word(w, c.lsb), loaded := true)
      else c
    else if c.latchMode == 1 then c.(load := w, loaded := true)
    else if c.latchMode == 2 then c.(value := Word(w, 0), load := Word(w, 0), loaded := true)
    else c
  }

  /** A loaded counter starts after a delay. */
  function Scheduled(c: Counter): (r: Counter)
  {
    c.(load := if c.bcd then FromBcd(c.load) else c.load,
       delay := if c.mode == 0 then 3 else if 1 <= c.mode <= 3 then (if c.enabled then c.delay else 3) else 4)
  }

  function Write(c: Counter, w: byte): (r: Counter)
  {
    var c1 := Loaded(c, w);
    if c1.loaded then Scheduled(c1) else c1
  }

  // ---- The square wave ---------------------------------------------------------

  /** The counter after `k` calls of Clock(1), and what the k-th of them returned. */
  function Clocked(c: Counter, k: nat): (r: Counter) { if k == 0 then c else Clock(Clocked(c, k - 1), 1).0 }

  function Output(c: Counter, k: nat): (r: int)
    requires k > 0
  {
    Clock(Clocked(c, k - 1), 1).1
  }

  /** Mode 3 and count N, loaded but not started. */
  function Programmed(c: Counter, mode: nat, n: word): (r: Counter)
  {
    Write(Write(SetMode(c, mode, 3, false), Low(n)), High(n))
  }

  function Half(n: nat): (h: nat) { (n + 1) / 2 }

  /** The running counter `r` calls into a period. */
  predicate Phase(c: Counter, n: word, r: nat)
  {
    && c.mode == 3 && c.load == n && c.delay == 0 && c.enabled && !c.loaded && !c.bcd
    && c.out == (if r < Half(n) then 1 else 0)
    && c.value == if r == 0 || r == Half(n) then n
                  else if n % 2 == 0 then (if r < Half(n) then n - 2 * r else n - 2 * (r - Half(n)))
                  else if r < Half(n) then n + 1 - 2 * r else n - 1 - 2 * (r - Half(n))
  }

  /** Mode `m` and count N, loaded but not started. */
  predicate Ready(p: Counter, m: nat, n: word)
  {
    p.mode == m && p.load == n && p.delay == 3 && p.out == (if m == 0 then 0 else 1) && p.loaded && !p.enabled && !p.bcd
  }

  lemma ProgrammedState(c: Counter, mode: nat, n: word)
    requires mode % 4 == 3
    ensures Ready(Programmed(c, mode, n), 3, n)
  {
    hide Clock;
  }

  lemma PhaseStep(c: Counter, n: word, r: nat)
    requires n >= 2 && r < n && Phase(c, n, r)
    ensures Phase(Clock(c, 1).0, n, if r + 1 == n then 0 else r + 1)
    ensures Clock(c, 1).1 == Clock(c, 1).0.out
  {
    hide Terminal, Periodic;
  }

  lemma FirstStep(c: Counter, n: word)
    requires n >= 2 && c.mode == 3 && c.load == n && c.delay == 0 && c.out == 1 && c.loaded && !c.enabled && !c.bcd
    ensures Phase(Clock(c, 1).0, n, 1) && Clock(c, 1).1 == Clock(c, 1).0.out
  {
    hide Terminal, Periodic;
  }

  /** After the three idle calls the counter runs through the phases, N calls to a period. */
  lemma {:induction false} PhaseAt(p: Counter, n: word, q: nat, r: nat)
    requires Ready(p, 3, n) && n >= 2 && r < n && q * n + r > 0
    ensures Phase(Clocked(p, 3 + (q * n + r)), n, r)
    ensures Output(p, 3 + (q * n + r)) == Clocked(p, 3 + (q * n + r)).out
    decreases q, r
  {
    hide Clock;
    if q == 0 && r == 1 {
      IdleCalls(p, 3, n);
      FirstStep(Clocked(p, 3), n);
      assert 3 + (q * n + r) == 4;
    } else {
      var q', r' := if r > 0 then q else q - 1, if r > 0 then r - 1 else n - 1;
      Backwards(q, r, n, q', r');
      PhaseAt(p, n, q', r');
      PhaseStep(Clocked(p, 3 + (q' * n + r')), n, r');
    }
  }

  lemma Backwards(q: nat, r: nat, n: nat, q': int, r': int)
    requires n >= 2 && r < n && q * n + r > 0 && !(q == 0 && r == 1)
    requires (q', r') == if r > 0 then (q, r - 1) else (q - 1, n - 1)
    ensures q' >= 0 && q' * n + r' + 1 == q * n + r && q' * n + r' > 0
  {
    if r == 0 {
      assert q != 0;
      assert q' * n + n == q * n;
    } else if q > 0 {
      assert q * n >= n;
    }
  }

  lemma IdleCalls(p: Counter, m: nat, n: word)
    requires Ready(p, m, n)
    ensures Clocked(p, 1) == p.(delay := 2) && Clocked(p, 2) == p.(delay := 1) && Clocked(p, 3) == p.(delay := 0)
    ensures Output(p, 1) == p.out && Output(p, 2) == p.out && Output(p, 3) == p.out
  {
    hide Terminal, Periodic, Square;
    assert Clocked(p, 0) == p;
    assert Clocked(p, 1) == Clock(p, 1).0 == p.(delay := 2);
    assert Clocked(p, 2) == Clock(Clocked(p, 1), 1).0 == p.(delay := 1);
    assert Clocked(p, 3) == Clock(Clocked(p, 2), 1).0 == p.(delay := 0);
  }

  /** For any count N of at least 2, however it was loaded, three idle calls return 1, and the j-th call after them
      returns 1 exactly when j mod N is below half of N, rounded up. */
  lemma SquareFrom(p: Counter, n: word, j: nat)
    requires Ready(p, 3, n) && n >= 2 && j >= 1
    ensures Output(p, 1) == 1 && Output(p, 2) == 1 && Output(p, 3) == 1
    ensures Output(p, 3 + j) == if j % n < (n + 1) / 2 then 1 else 0
  {
    hide Clock, Clocked;
    IdleCalls(p, 3, n);
    var q, r := j / n, j % n;
    assert j == q * n + r;
    PhaseAt(p, n, q, r);
  }

  lemma SquareWave(c: Counter, mode: nat, n: word, j: nat)
    requires mode % 4 == 3 && n >= 2 && j >= 1
    ensures var p := Programmed(c, mode, n);
            && Output(p, 1) == 1 && Output(p, 2) == 1 && Output(p, 3) == 1
            && Output(p, 3 + j) == if j % n < (n + 1) / 2 then 1 else 0
  {
    ProgrammedState(c, mode, n);
    hide Output, Programmed;
    SquareFrom(Programmed(c, mode, n), n, j);
  }

  // ---- The decimal conversion ---------------------------------------------------

  lemma BcdRoundTrip(x: nat)
    requires x < 10000
    ensures FromBcd(ToBcd(x)) == x
  {
    hide FromBcd;
    var q1 := x / 10;
    var q2 := q1 / 10;
    var q3 := q2 / 10;
    var a, b, c, d := q3 % 10, q2 % 10, q1 % 10, x % 10;
    assert x == 10 * q1 + d && q1 == 10 * q2 + c && q2 == 10 * q3 + b && q3 == a;
    Nibbles(a, b, c, d);
  }

  lemma Nibbles(a: nat, b: nat, c: nat, d: nat)
    requires a < 10 && b < 10 && c < 10 && d < 10
    ensures FromBcd(0x1000 * a + 0x100 * b + 0x10 * c + d) == 1000 * a + 100 * b + 10 * c + d
  {
    var x := 0x1000 * a + 0x100 * b + 0x10 * c + d;
    assert x / 0x1000 == a && x / 0x100 == 16 * a + b && x / 0x10 == 256 * a + 16 * b + c && x % 16 == d;
    assert x / 0x100 % 16 == b && x / 0x10 % 16 == c;
  }
}
