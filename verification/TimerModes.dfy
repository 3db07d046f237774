/** The other modes of the 8253 and the ways to load a count (libs/v6core/src/timer_i8253.cpp): what Clock returns and where
    the count stands after any number of calls. */
module TimerModes {
  import opened Bytes
  import opened Timer

  // ---- Programming ----------------------------------------------------------------

  /** SetMode stops the counter and forgets a half-written count; modes 6 and 7 are 2 and 3; the output of mode 0 starts
      low, of all others high. */
  lemma SetModeMeans(c: Counter, mode: nat, latch: int, bcd: bool)
    requires mode < 8
    ensures var s := SetMode(c, mode, latch, bcd);
            && s.mode == (if mode >= 6 then mode - 4 else mode) && s.latchMode == latch && s.bcd == bcd
            && s.out == (if mode == 0 then 0 else 1) && (mode <= 1 ==> s.armed)
            && !s.enabled && !s.loaded && s.delay == 1 && s.writeState == 0
  {
    hide Clock;
  }

  /** The count as the program writes it: both bytes, low first, or one byte alone as the low or the high one. */
  function Wrote(c: Counter, lo: byte, hi: byte): (r: Counter)
  {
    if c.latchMode == 3 then Write(Write(c, lo), hi) else if c.latchMode == 1 then Write(c, lo) else Write(c, hi)
  }

  /** A stopped counter in binary waits for three calls with the count written; high-byte loading also shows it at once. */
  lemma LoadMeans(c: Counter, mode: nat, latch: int, lo: byte, hi: byte)
    requires mode < 4 && 1 <= latch <= 3
    ensures var s := SetMode(c, mode, latch, false);
            var p := Wrote(s, lo, hi);
            && Ready(p, mode, (if latch == 2 then 0 else lo) + 0x100 * (if latch == 1 then 0 else hi))
            && p.armed == s.armed && p.value == (if latch == 2 then 0x100 * hi else s.value)
  {
    SetModeMeans(c, mode, latch, false);
    hide Clock, SetMode;
  }

  /** In decimal, writing the four digits of a number loads that number. */
  lemma DecimalLoad(c: Counter, mode: nat, x: nat)
    requires mode < 4 && x < 10000
    ensures var s := SetMode(c, mode, 3, true);
            var p := Wrote(s, Low(ToBcd(x)), High(ToBcd(x)));
            p.load == x && p.loaded && p.delay == 3 && p.bcd && !p.enabled && p.mode == mode
  {
    SetModeMeans(c, mode, 3, true);
    BcdRoundTrip(x);
    hide Clock, SetMode, ToBcd, FromBcd;
    var w := ToBcd(x);
    assert Word(High(w), Low(w)) == w;
  }

  // ---- Mode 0: interrupt on terminal count ---------------------------------------------

  /** The counter `j` calls after it started. */
  predicate Counting(c: Counter, n: word, j: nat)
  {
    && c.mode == 0 && c.load == n && c.delay == 0 && c.enabled && !c.loaded && !c.bcd
    && (if j < n then c.armed && c.out == 0 && c.value == n - j else !c.armed && c.out == if n == 0 then 0 else 1)
  }

  lemma CountingStarts(c: Counter, n: word)
    requires Ready(c.(delay := 3), 0, n) && c.delay == 0
    ensures Counting(Clock(c, 1).0, n, 1)
    ensures Clock(c, 1).1 == if n == 0 then 2 else if n == 1 then 1 else 0
  {
    hide Periodic, Square;
  }

  lemma CountingOn(c: Counter, n: word, j: nat)
    requires Counting(c, n, j) && j >= 1
    ensures Counting(Clock(c, 1).0, n, j + 1)
    ensures Clock(c, 1).1 == if n > 0 && j + 1 >= n then 1 else 0
  {
    hide Periodic, Square;
  }

  lemma {:induction false} CountingAt(p: Counter, n: word, j: nat)
    requires Ready(p, 0, n) && j >= 1
    ensures Counting(Clocked(p, 3 + j), n, j)
    ensures Output(p, 3 + j) == if n == 0 then (if j == 1 then 2 else 0) else if j >= n then 1 else 0
  {
    hide Clock;
    if j == 1 {
      IdleCalls(p, 0, n);
      CountingStarts(Clocked(p, 3), n);
      assert Clocked(p, 4) == Clock(Clocked(p, 3), 1).0;
    } else {
      CountingAt(p, n, j - 1);
      CountingOn(Clocked(p, 3 + (j - 1)), n, j - 1);
      assert Clocked(p, 3 + j) == Clock(Clocked(p, 3 + (j - 1)), 1).0;
    }
  }

  /** Mode 0: low for three idle calls and until the N-th call after them, high from then on. A count of 0 does not stand
      for 65536: the first call returns 2 and the output never rises. */
  lemma TerminalCount(p: Counter, n: word, j: nat)
    requires Ready(p, 0, n) && j >= 1
    ensures Output(p, 1) == 0 && Output(p, 2) == 0 && Output(p, 3) == 0
    ensures Output(p, 3 + j) == if n == 0 then (if j == 1 then 2 else 0) else if j >= n then 1 else 0
  {
    IdleCalls(p, 0, n);
    CountingAt(p, n, j);
  }

  // ---- Modes 1 and 2 ---------------------------------------------------------------------

  /** Mode 2 runs with period N, mode 1 with period N + 1; a count of 0 stands for 65536 in both. */
  function Period(mode: nat, n: word): (m: nat)
    ensures m > 0
  {
    if n == 0 then 0x1_0000 else if mode == 1 then n + 1 else n
  }

  /** The count `j` calls after the start from `v`. */
  predicate Cycling(c: Counter, mode: nat, n: word, v: nat, j: nat)
  {
    && c.mode == mode && c.load == n && c.delay == 0 && c.enabled && !c.loaded && !c.bcd && c.out == 1
    && c.value == if j < v then v - j else Period(mode, n) - (j - v) % Period(mode, n)
  }

  lemma NextResidue(x: nat, m: nat)
    requires m > 0
    ensures (x + 1) % m == if x % m + 1 == m then 0 else x % m + 1
  {
    var q, r := x / m, x % m;
    if r + 1 == m {
      assert x + 1 == m * (q + 1);
      Quotient(x + 1, m, q + 1, 0);
    } else {
      Quotient(x + 1, m, q, r + 1);
    }
  }

  /** The value mode 1 or 2 starts to count from: mode 1 keeps the one it had. */
  function StartOf(p: Counter, mode: nat, n: word): (v: int) { if mode == 1 then p.value else n }

  lemma OneDown(v: nat, j: nat, m: nat)
    requires m > 0
    ensures var was, now := if j < v then v - j else m - (j - v) % m, if j + 1 < v then v - (j + 1) else m - (j + 1 - v) % m;
            was > 0 && (j + 1 >= v || j < v) && now == if was > 1 then was - 1 else m
  {
    if j >= v { NextResidue(j - v, m); }
    else if j + 1 == v { assert 0 % m == 0; }
  }

  lemma CyclingStarts(c: Counter, mode: nat, n: word)
    requires (mode == 1 || mode == 2) && Ready(c.(delay := 3), mode, n) && c.delay == 0 && StartOf(c, mode, n) >= 0
    ensures Cycling(Clock(c, 1).0, mode, n, StartOf(c, mode, n), 1) && Clock(c, 1).1 == 1
  {
    hide Terminal, Square;
    var v, m := StartOf(c, mode, n), Period(mode, n);
    if v == 0 { Quotient(1, m, 0, 1); } else if v == 1 { assert 0 % m == 0; }
  }

  lemma CyclingOn(c: Counter, mode: nat, n: word, v: nat, j: nat)
    requires (mode == 1 || mode == 2) && Cycling(c, mode, n, v, j) && j >= 1
    ensures Cycling(Clock(c, 1).0, mode, n, v, j + 1) && Clock(c, 1).1 == 1
  {
    OneDown(v, j, Period(mode, n));
    hide Terminal, Square;
  }

  /** Modes 1 and 2: the output stays high, and after j calls the count stands at N - j mod N in mode 2; in mode 1 it first
      runs down from where it stood and then cycles through N + 1 values. A count of 0 is 65536. */
  lemma {:induction false} PeriodicCount(p: Counter, mode: nat, n: word, j: nat)
    requires (mode == 1 || mode == 2) && Ready(p, mode, n) && j >= 1 && StartOf(p, mode, n) >= 0
    ensures Output(p, 1) == 1 && Output(p, 2) == 1 && Output(p, 3) == 1 && Output(p, 3 + j) == 1
    ensures var v := StartOf(p, mode, n);
            Clocked(p, 3 + j).value == if j < v then v - j else Period(mode, n) - (j - v) % Period(mode, n)
    ensures Cycling(Clocked(p, 3 + j), mode, n, StartOf(p, mode, n), j)
  {
    hide Clock;
    IdleCalls(p, mode, n);
    if j == 1 {
      CyclingStarts(Clocked(p, 3), mode, n);
      assert Clocked(p, 4) == Clock(Clocked(p, 3), 1).0;
    } else {
      PeriodicCount(p, mode, n, j - 1);
      CyclingOn(Clocked(p, 3 + (j - 1)), mode, n, StartOf(p, mode, n), j - 1);
      assert Clocked(p, 3 + j) == Clock(Clocked(p, 3 + (j - 1)), 1).0;
    }
  }
}
