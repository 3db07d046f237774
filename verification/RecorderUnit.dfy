/** class Recorder of libs/v6core/src/recorder.cpp: the ring, its cursors and main memory changed in place. */
module RecorderUnit {
  import opened Bytes
  import opened Memory
  import opened Cpu
  import R = Recorder

  /** The parts of the machine the recorder reads and restores. */
  class Machine<S> {
    var hw: R.Hw<S>
    var log: WriteLog
    const ram: array<byte>

    ghost predicate Valid() { ram.Length == GLOBAL_LEN }

    constructor (hw: R.Hw<S>, ram: array<byte>, log: WriteLog)
      ensures this.hw == hw && this.ram == ram && this.log == log
    {
      this.hw, this.ram, this.log := hw, ram, log;
    }

    ghost function World(): (w: R.World<S>)
      requires Valid()
      reads this, ram
    {
      R.World(hw, ram[..])
    }
  }

  class Recorder<S> {
    const states: array<R.Frame<S>>
    var stateIdx: nat
    var stateCurrent: nat
    var stateRecorded: nat
    var lastRecord: bool
    var frameNum: nat

    ghost function Tape(): (t: R.Tape<S>)
      reads this, states
    {
      R.Tape(states[..], stateIdx, stateCurrent, stateRecorded, lastRecord, frameNum)
    }

    ghost predicate Valid()
      reads this, states
    {
      Tape().Sane() && R.Ranged(Tape())
    }

    constructor (recordFrames: nat, blank: R.Frame<S>)
      requires recordFrames > 0 && blank.diff == []
      ensures R.Ranged(Tape()) && fresh(states) && 0 < states.Length <= R.RECORD_FRAMES_MAX
      ensures recordFrames <= R.RECORD_FRAMES_MAX ==> states.Length == recordFrames
      ensures Tape() == R.Tape(states[..], 0, 0, 0, true, 0)
    {
      states := new R.Frame<S>[if recordFrames < R.RECORD_FRAMES_MAX then recordFrames else R.RECORD_FRAMES_MAX](_ => blank);
      stateIdx, stateCurrent, stateRecorded, lastRecord, frameNum := 0, 0, 0, true, 0;
    }

    method StoreState(m: Machine<S>)
      requires m.Valid() && states.Length > 0
      modifies `stateIdx, `stateCurrent, `stateRecorded, states
      ensures Tape() == R.Stored(old(Tape()), old(m.World()))
      ensures lastRecord == old(lastRecord)
    {
      stateIdx := (stateIdx + 1) % states.Length;
      stateCurrent := if stateCurrent + 1 < states.Length then stateCurrent + 1 else states.Length;
      stateRecorded := stateCurrent;
      states[stateIdx] := R.Frame(m.hw, []);
    }

    method Reset(m: Machine<S>)
      requires m.Valid() && states.Length > 0 && R.Ranged(Tape()) && m.ram as object != states as object
      modifies this, states
      ensures Valid() && Tape() == R.Reset(old(Tape()), m.World()) && m.World() == old(m.World())
      ensures R.Consistent(R.Session(Tape(), m.World()), [m.World()])
    {
      stateIdx, stateRecorded, stateCurrent, lastRecord := 0, 0, 0, true;
      frameNum := m.hw.frameNum;
      R.ResetConsistent(Tape(), m.World());
      StoreState(m);
    }

    method CleanMemUpdates()
      requires stateIdx < states.Length && !lastRecord
      modifies this, states
      ensures Tape() == R.Resumed(old(Tape()))
    {
      lastRecord := true;
      stateRecorded := stateCurrent;
      states[stateIdx] := states[stateIdx].(diff := []);
    }

    method StoreMemoryDiff(log: WriteLog)
      requires stateIdx < states.Length && log.len <= 2
      modifies states
      ensures Tape() == R.Appended(old(Tape()), log)
      ensures states[stateIdx].diff == old(states[stateIdx].diff) + [log.slot0, log.slot1][..log.len]
    {
      assert R.Entries(log) == [log.slot0, log.slot1][..log.len];
      var i := 0;
      ghost var d := R.Entries(log);
      ghost var was := states[..];
      while i < log.len
        invariant 0 <= i <= log.len && |states[..]| == |was|
        invariant forall j :: 0 <= j < |was| && j != stateIdx ==> states[j] == was[j]
        invariant states[stateIdx] == was[stateIdx].(diff := was[stateIdx].diff + d[..i])
      {
        var entry := if i == 0 then log.slot0 else log.slot1;
        assert d[..i + 1] == d[..i] + [entry];
        assert was[stateIdx].diff + d[..i] + [entry] == was[stateIdx].diff + d[..i + 1];
        states[stateIdx] := states[stateIdx].(diff := states[stateIdx].diff + [entry]);
        i := i + 1;
      }
      assert d[..i] == d;
      assert states[..] == was[stateIdx := was[stateIdx].(diff := was[stateIdx].diff + d)];
    }

    /** For any log; on a history `h` before, an exact log keeps the tape on the history. */
    method Update(m: Machine<S>, ghost before: R.World<S>, ghost h: seq<R.World<S>>)
      requires Valid() && m.Valid() && m.ram as object != states as object && m.log.len <= 2 && R.L.LogInRange(m.log)
      modifies this, states
      ensures Valid() && m.World() == old(m.World()) && Tape() == R.Update(old(Tape()), m.World(), m.log)
      ensures lastRecord && frameNum == m.hw.frameNum
      ensures old(R.Consistent(R.Session(Tape(), before), h)) && R.L.Exact(before.ram, m.ram[..], m.log) ==>
                R.Consistent(R.Session(Tape(), m.World()), R.Extended(old(Tape()), h, m.World()))
    {
      R.UpdateRanged(Tape(), m.World(), m.log);
      if R.Consistent(R.Session(Tape(), before), h) && R.L.Exact(before.ram, m.ram[..], m.log) {
        R.UpdateConsistent(R.Session(Tape(), before), h, m.World(), m.log);
      }
      hide R.Consistent, R.Extended, R.Update, R.Ranged, R.L.Exact;
      Record(m);
    }

    method Record(m: Machine<S>)
      requires m.Valid() && m.ram as object != states as object && stateIdx < states.Length && m.log.len <= 2
      modifies this, states
      ensures m.World() == old(m.World()) && Tape() == R.Update(old(Tape()), m.World(), m.log)
      ensures lastRecord && frameNum == m.hw.frameNum
    {
      if !lastRecord { CleanMemUpdates(); }
      ghost var resumed := Tape();
      assert resumed == R.Resumed(old(Tape()));
      if m.log.len != 0 { StoreMemoryDiff(m.log); } else { NothingLogged(resumed, m.log); }
      ghost var open := Tape();
      assert open == R.Appended(resumed, m.log);
      hide R.Appended, R.Resumed;
      if frameNum != m.hw.frameNum {
        StoreState(m);
        frameNum := m.hw.frameNum;
      }
    }

    /** Redo the diff of the current frame on main memory. */
    method RedoDiff(m: Machine<S>)
      requires m.Valid() && stateIdx < states.Length && m.ram as object != states as object
      requires R.AllInRange(states[stateIdx].diff)
      modifies m.ram
      ensures m.ram[..] == R.Redo(old(m.ram[..]), states[stateIdx].diff)
    {
      var diff := states[stateIdx].diff;
      var i := 0;
      while i < |diff|
        invariant 0 <= i <= |diff|
        invariant m.ram[..] == R.Redo(old(m.ram[..]), diff[..i])
      {
        assert diff[..i + 1][..i] == diff[..i];
        m.ram[diff[i].addr] := diff[i].value;
        i := i + 1;
      }
      assert diff[..i] == diff;
    }

    method UndoDiff(m: Machine<S>)
      requires m.Valid() && stateIdx < states.Length && m.ram as object != states as object
      requires R.AllInRange(states[stateIdx].diff)
      modifies m.ram
      ensures m.ram[..] == R.Undo(old(m.ram[..]), states[stateIdx].diff)
    {
      var diff := states[stateIdx].diff;
      var i := |diff|;
      assert diff[..i] == diff;
      while i > 0
        invariant 0 <= i <= |diff|
        invariant R.Undo(m.ram[..], diff[..i]) == R.Undo(old(m.ram[..]), diff)
      {
        i := i - 1;
        assert diff[..i + 1][..i] == diff[..i];
        m.ram[diff[i].addr] := diff[i].before;
      }
    }

    method StepForward(m: Machine<S>)
      requires m.Valid() && m.ram as object != states as object
      requires R.CanForward(R.Session(Tape(), m.World())) && stateCurrent != stateRecorded
      modifies `stateIdx, `stateCurrent, m.ram, m`hw
      ensures R.Session(Tape(), m.World()) == R.ForwardStep(old(R.Session(Tape(), m.World())))
    {
      RedoDiff(m);
      stateIdx := (stateIdx + 1) % states.Length;
      stateCurrent := stateCurrent + 1;
      m.hw := states[stateIdx].hw;
    }

    /** Any number of frames, live or not; while replaying a history `h` it stays on it. */
    method PlayForward(frames: int, m: Machine<S>, ghost h: seq<R.World<S>>)
      requires Valid() && m.Valid() && m.ram as object != states as object
      modifies `stateIdx, `stateCurrent, `lastRecord, m.ram, m`hw
      ensures Valid()
      ensures R.Session(Tape(), m.World()) == R.PlayForward(old(R.Session(Tape(), m.World())), if frames < 0 then 0 else frames)
      ensures old(!lastRecord && R.Consistent(R.Session(Tape(), m.World()), h)) ==> R.Consistent(R.Session(Tape(), m.World()), h)
    {
      ghost var start := R.Session(Tape(), m.World());
      var n: nat := if frames < 0 then 0 else frames;
      if !lastRecord && R.Consistent(start, h) { R.ForwardLands(start, h, n); }
      hide R.Consistent, R.PlayForward, R.Ranged;
      PlayForwardFrames(n, m);
    }

    method PlayForwardFrames(n: nat, m: Machine<S>)
      requires Valid() && m.Valid() && m.ram as object != states as object
      modifies `stateIdx, `stateCurrent, `lastRecord, m.ram, m`hw
      ensures Valid() && R.Session(Tape(), m.World()) == R.PlayForward(old(R.Session(Tape(), m.World())), n)
    {
      ghost var start := R.Session(Tape(), m.World());
      hide R.ForwardStep, R.CanForward, R.PlayForward, R.Ranged;
      var i := 0;
      while i < n
        invariant 0 <= i <= n && Valid()
        invariant R.PlayForward(R.Session(Tape(), m.World()), n - i) == R.PlayForward(start, n)
      {
        ghost var s := R.Session(Tape(), m.World());
        if stateCurrent == stateRecorded {
          LastStep(s, n - i);
          lastRecord := false;
          assert R.Session(Tape(), m.World()) == s.(tape := s.tape.(live := false));
          RangedStays(s.tape, Tape());
          return;
        }
        OneMore(s, n - i);
        StepForward(m);
        RangedStays(s.tape, Tape());
        i := i + 1;
      }
      ForwardDone(R.Session(Tape(), m.World()));
    }

    method StepReverse(m: Machine<S>)
      requires m.Valid() && m.ram as object != states as object
      requires R.CanReverse(R.Session(Tape(), m.World())) && !(stateCurrent == 1 && !lastRecord)
      modifies `stateIdx, `stateCurrent, `lastRecord, m.ram, m`hw
      ensures R.Session(Tape(), m.World()) == R.ReverseStep(old(R.Session(Tape(), m.World())))
    {
      if lastRecord {
        lastRecord := false;
      } else {
        stateIdx := if stateIdx > 0 then (stateIdx - 1) % states.Length else (R.INDEX_MOD - 1) % states.Length;
        stateCurrent := stateCurrent - 1;
      }
      m.hw := states[stateIdx].hw;
      UndoDiff(m);
    }

    /** Any number of frames on any ring; where the way back is clear it stays on the history `h`. */
    method PlayReverse(frames: int, m: Machine<S>, ghost h: seq<R.World<S>>)
      requires Valid() && m.Valid() && m.ram as object != states as object
      modifies `stateIdx, `stateCurrent, `lastRecord, m.ram, m`hw
      ensures Valid()
      ensures R.Session(Tape(), m.World()) == R.PlayReverse(old(R.Session(Tape(), m.World())), if frames < 0 then 0 else frames)
      ensures old(R.Consistent(R.Session(Tape(), m.World()), h) && (frames > 0 ==> R.Clear(Tape(), frames))) ==>
                R.Consistent(R.Session(Tape(), m.World()), h)
    {
      ghost var start := R.Session(Tape(), m.World());
      var n: nat := if frames < 0 then 0 else frames;
      if n > 0 && R.Consistent(start, h) && R.Clear(Tape(), n) { R.ReverseLands(start, h, n); }
      ReverseDone(start);
      hide R.Consistent, R.PlayReverse, R.Ranged, R.Clear;
      PlayReverseFrames(n, m);
    }

    method PlayReverseFrames(n: nat, m: Machine<S>)
      requires Valid() && m.Valid() && m.ram as object != states as object
      modifies `stateIdx, `stateCurrent, `lastRecord, m.ram, m`hw
      ensures Valid() && R.Session(Tape(), m.World()) == R.PlayReverse(old(R.Session(Tape(), m.World())), n)
    {
      ghost var start := R.Session(Tape(), m.World());
      hide R.ReverseStep, R.CanReverse, R.PlayReverse, R.Ranged;
      var i := 0;
      while i < n
        invariant 0 <= i <= n && Valid()
        invariant R.PlayReverse(R.Session(Tape(), m.World()), n - i) == R.PlayReverse(start, n)
      {
        ghost var s := R.Session(Tape(), m.World());
        OneBack(s, n - i);
        if stateCurrent == 1 && !lastRecord {
          ReverseStops(s, n - i);
          return;
        }
        StepReverse(m);
        RangedStays(s.tape, Tape());
        i := i + 1;
      }
      ReverseDone(R.Session(Tape(), m.World()));
    }
  }

  lemma RangedStays<S>(t: R.Tape<S>, t': R.Tape<S>)
    requires R.Ranged(t) && t'.states == t.states
    ensures R.Ranged(t')
  {
  }

  lemma OneBack<S>(s: R.Session<S>, frames: nat)
    requires s.tape.Sane() && R.Ranged(s.tape) && frames > 0
    ensures R.CanReverse(s) && R.PlayReverse(s, frames) == R.PlayReverse(R.ReverseStep(s), frames - 1)
    ensures R.ReverseStep(s).tape.Sane() && R.ReverseStep(s).tape.states == s.tape.states
  {
    hide R.Undo;
  }

  lemma ReverseDone<S>(s: R.Session<S>)
    ensures R.PlayReverse(s, 0) == s
  {
  }

  lemma NothingLogged<S>(t: R.Tape<S>, log: WriteLog)
    requires t.idx < |t.states| && log.len == 0
    ensures R.Appended(t, log) == t
  {
    assert t.states[t.idx].diff + [] == t.states[t.idx].diff;
  }

  lemma OneMore<S>(s: R.Session<S>, frames: nat)
    requires s.tape.Sane() && R.Ranged(s.tape) && s.tape.current != s.tape.recorded && frames > 0
    ensures R.CanForward(s) && R.PlayForward(s, frames) == R.PlayForward(R.ForwardStep(s), frames - 1)
    ensures R.ForwardStep(s).tape.Sane() && R.ForwardStep(s).tape.states == s.tape.states
  {
    hide R.Redo;
    R.NextIndex(s.tape.idx, |s.tape.states|);
  }

  lemma ForwardDone<S>(s: R.Session<S>)
    ensures R.PlayForward(s, 0) == s
  {
  }

  lemma LastStep<S>(s: R.Session<S>, frames: nat)
    requires s.tape.Sane() && s.tape.current == s.tape.recorded && frames > 0
    ensures R.PlayForward(s, frames) == s.(tape := s.tape.(live := false))
  {
    R.ForwardStops(s.(tape := s.tape.(live := false)), frames - 1);
  }

  lemma {:induction false} ReverseStops<S>(s: R.Session<S>, frames: nat)
    requires R.CanReverse(s) && s.tape.current == 1 && !s.tape.live
    ensures R.PlayReverse(s, frames) == s
  {
    if frames > 0 { ReverseStops(s, frames - 1); }
  }
}
