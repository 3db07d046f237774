/** class CounterUnit of libs/v6core/src/timer_i8253.cpp: the fields in place. */
module TimerUnit {
  import opened Bytes
  import opened T = Timer

  class CounterUnit {
    var value: int
    var loadValue: word
    var mode: int
    var out: int
    var delay: nat
    var flagArmed: bool
    var flagLoad: bool
    var flagEnabled: bool
    var flagBcd: bool
    var latchMode: int
    var latchValue: int
    var writeState: nat
    var writeLsb: byte

    ghost function View(): (c: Counter)
      reads this
    {
      Counter(value, loadValue, mode, out, delay, flagArmed, flagLoad, flagEnabled, flagBcd, latchMode, latchValue, writeState, writeLsb)
    }

    constructor ()
      ensures View() == Counter(0, 0, 0, 0, 0, false, false, false, false, 0, -1, 0, 0)
    {
      latchValue := -1;
      writeState, value, mode, loadValue, delay := 0, 0, 0, 0, 0;
      flagArmed, flagLoad, flagEnabled, flagBcd := false, false, false, false;
      writeLsb, out, latchMode := 0, 0, 0;
    }

    method TerminalCount(cycles: nat) returns (result: int)
      modifies this
      ensures (View(), result) == Terminal(old(View()), cycles)
    {
      result := out;
      if flagLoad {
        value, flagEnabled, flagArmed, out, result := loadValue, true, true, 0, 0;
      }
      if flagEnabled {
        var previous := value;
        value := value - cycles;
        if value <= 0 {
          if flagArmed {
            if previous != 0 { out := 1; }
            result := -value + 1;
            flagArmed := false;
          }
          value := value + if flagBcd then 10000 else 65536;
        }
      }
    }

    /** Modes 1 and 2. */
    method CountDown(cycles: nat)
      requires mode == 1 || mode == 2
      modifies this
      ensures View() == Periodic(old(View()), cycles)
    {
      if !flagEnabled && flagLoad {
        if mode == 2 { value := loadValue; }
        flagEnabled := true;
      }
      if flagEnabled {
        value := value - cycles;
        if value <= 0 {
          var reload := if loadValue == 0 then (if flagBcd then 10000 else 0x10000) else if mode == 1 then loadValue + 1 else loadValue;
          value := value + reload;
        }
      }
    }

    method SquareWaveStep()
      modifies this
      ensures View() == Square(old(View()))
    {
      if !flagEnabled && flagLoad {
        value, flagEnabled := loadValue, true;
      }
      if flagEnabled {
        value := value - if value == loadValue && value % 2 == 1 then (if out == 0 then 3 else 1) else 2;
        if value <= 0 {
          out := if out == 0 then 1 else 0;
          var reload := if loadValue == 0 then (if flagBcd then 10000 else 0x10000) else loadValue;
          value := value + reload;
        }
      }
    }

    method Clock(cycles: nat) returns (result: int)
      modifies this
      ensures (View(), result) == T.Clock(old(View()), cycles)
    {
      hide Terminal, Periodic, Square;
      if delay > 0 {
        delay := delay - 1;
        return out;
      }
      if cycles == 0 || (!flagEnabled && !flagLoad) { return out; }
      result := out;
      if mode == 0 {
        result := TerminalCount(cycles);
      } else if mode == 1 || mode == 2 {
        CountDown(cycles);
      } else if mode == 3 {
        SquareWaveStep();
        result := out;
      }
      flagLoad := false;
    }

    method SetMode(newMode: nat, newLatchMode: int, bcd: bool)
      modifies this
      ensures View() == T.SetMode(old(View()), newMode, newLatchMode, bcd)
    {
      hide T.Clock;
      var _ := Clock(LATCH_DELAY);
      Restart(if newMode % 4 == 2 then 2 else if newMode % 4 == 3 then 3 else newMode, newLatchMode, bcd);
    }

    /** The part of SetMode after its clock. */
    method Restart(newMode: nat, newLatchMode: int, bcd: bool)
      modifies this
      ensures View() == T.Restarted(old(View()), newMode, newLatchMode, bcd)
    {
      delay, flagBcd := LATCH_DELAY, bcd;
      mode := newMode;
      if mode == 0 {
        out, flagArmed, flagEnabled := 0, true, false;
      } else if mode == 1 {
        out, flagArmed, flagEnabled := 1, true, false;
      } else {
        out, flagEnabled := 1, false;
      }
      flagLoad, latchMode, writeState := false, newLatchMode, 0;
    }

    method Write(w: byte)
      modifies this
      ensures View() == T.Write(old(View()), w)
    {
      hide FromBcd;
      Load(w);
      if flagLoad { Schedule(); }
    }

    /** A loaded counter starts after a delay. */
    method Schedule()
      modifies this
      ensures View() == T.Scheduled(old(View()))
    {
      hide FromBcd;
      if flagBcd { loadValue := FromBcd(loadValue); }
      if mode == 0 { delay := 3; }
      else if 1 <= mode <= 3 { if !flagEnabled { delay := 3; } }
      else { delay := 4; }
    }

    /** One byte of a count, as the latch mode says. */
    method Load(w: byte)
      modifies this
      ensures View() == T.Loaded(old(View()), w)
    {
      if latchMode == 3 {
        if writeState == 0 {
          writeLsb, writeState := w, 1;
        } else if writeState == 1 {
          writeState := 0;
          loadValue, flagLoad := Word(w, writeLsb), true;
        }
      } else if latchMode == 1 {
        loadValue, flagLoad := w, true;
      } else if latchMode == 2 {
        value := Word(w, 0);
        loadValue, flagLoad := Word(w, 0), true;
      }
    }
  }
}
