/** The time-travel recorder of libs/v6core/src/recorder.cpp as values: a ring of frame starts, each with the
    memory diff of its frame, and the playback operations that move along it. */
module Recorder {
  import opened Memory
  import opened Cpu
  import L = WriteLog

  const RECORD_FRAMES_MAX := 3000
  const INDEX_MOD := 0x1_0000_0000_0000_0000

  // ---- Diffs --------------------------------------------------------------

  type Diff = seq<Entry>

  predicate AllInRange(d: Diff) { forall i :: 0 <= i < |d| ==> d[i].addr < GLOBAL_LEN }

  /** Write the new bytes, oldest entry first. */
  function Redo(ram: Ram, d: Diff): (r: Ram)
    requires AllInRange(d)
  {
    if |d| == 0 then ram
    else var e := d[|d| - 1]; Redo(ram, d[..|d| - 1])[e.addr := e.value]
  }

  /** Put the old bytes back, newest entry first. */
  function Undo(ram: Ram, d: Diff): (r: Ram)
    requires AllInRange(d)
    decreases |d|
  {
    if |d| == 0 then ram
    else var e := d[|d| - 1]; Undo(ram[e.addr := e.before], d[..|d| - 1])
  }

  predicate Joins(a: Ram, d: Diff, b: Ram) { AllInRange(d) && Redo(a, d) == b && Undo(b, d) == a }

  lemma {:induction false} RedoConcat(a: Ram, d: Diff, e: Diff)
    requires AllInRange(d) && AllInRange(e)
    ensures AllInRange(d + e) && Redo(a, d + e) == Redo(Redo(a, d), e)
  {
    if |e| == 0 {
      assert d + e == d;
    } else {
      var e' := e[..|e| - 1];
      assert (d + e)[..|d + e| - 1] == d + e';
      RedoConcat(a, d, e');
    }
  }

  lemma {:induction false} UndoConcat(b: Ram, d: Diff, e: Diff)
    requires AllInRange(d) && AllInRange(e)
    ensures AllInRange(d + e) && Undo(b, d + e) == Undo(Undo(b, e), d)
    decreases |e|
  {
    if |e| == 0 {
      assert d + e == d;
    } else {
      var e' := e[..|e| - 1];
      assert (d + e)[..|d + e| - 1] == d + e';
      UndoConcat(b[e[|e| - 1].addr := e[|e| - 1].before], d, e');
    }
  }

  lemma JoinsConcat(a: Ram, d: Diff, b: Ram, e: Diff, c: Ram)
    requires Joins(a, d, b) && Joins(b, e, c)
    ensures Joins(a, d + e, c)
  {
    RedoConcat(a, d, e);
    UndoConcat(c, d, e);
  }

  function Entries(log: WriteLog): (d: Diff)
  {
    if log.len == 0 then [] else if log.len == 1 then [log.slot0] else [log.slot0, log.slot1]
  }

  /** The entries of an exact instruction log join the memory before to the memory after. */
  lemma ExactJoins(before: Ram, after: Ram, log: WriteLog)
    requires L.Exact(before, after, log)
    ensures Joins(before, Entries(log), after)
  {
    var d := Entries(log);
    if log.len == 1 {
      assert d[..0] == [];
    } else if log.len == 2 {
      assert d[..1] == [log.slot0] && d[..1][..0] == [];
      assert Redo(before, d[..1]) == before[log.slot0.addr := log.slot0.value];
      var b1 := after[log.slot1.addr := log.slot1.before];
      assert Undo(b1, d[..1]) == Undo(b1[log.slot0.addr := log.slot0.before], d[..1][..0]);
      assert Undo(after, d) == Undo(b1, d[..1]);
    }
  }

  // ---- The ring -----------------------------------------------------------

  /** A snapshot of CPU, mapping, I/O and display; only the frame number is looked at. */
  datatype Hw<S> = Hw(frameNum: nat, rest: S)
  datatype World<S> = World(hw: Hw<S>, ram: Ram)
  datatype Frame<S> = Frame(hw: Hw<S>, diff: Diff)

  /** `live` is m_lastRecord: the machine runs inside the last recorded frame. */
  datatype Tape<S> = Tape(states: seq<Frame<S>>, idx: nat, current: nat, recorded: nat, live: bool, frameNum: nat)
  {
    predicate Sane() { idx < |states| && 1 <= current <= recorded <= |states| }
  }

  datatype Session<S> = Session(tape: Tape<S>, world: World<S>)

  function Stored<S>(t: Tape<S>, w: World<S>): (r: Tape<S>)
    requires |t.states| > 0
  {
    var idx := (t.idx + 1) % |t.states|;
    var current := if t.current + 1 < |t.states| then t.current + 1 else |t.states|;
    t.(idx := idx, current := current, recorded := current, states := t.states[idx := Frame(w.hw, [])])
  }

  function Reset<S>(t: Tape<S>, w: World<S>): (r: Tape<S>)
    requires |t.states| > 0
  {
    Stored(t.(idx := 0, current := 0, recorded := 0, live := true, frameNum := w.hw.frameNum), w)
  }

  /** Resuming after playback forgets the frames ahead and the diff of the current one. */
  function Resumed<S>(t: Tape<S>): (r: Tape<S>)
    requires t.idx < |t.states|
  {
    if t.live then t
    else t.(live := true, recorded := t.current, states := t.states[t.idx := t.states[t.idx].(diff := [])])
  }

  function Appended<S>(t: Tape<S>, log: WriteLog): (r: Tape<S>)
    requires t.idx < |t.states|
  {
    t.(states := t.states[t.idx := t.states[t.idx].(diff := t.states[t.idx].diff + Entries(log))])
  }

  /** Recorder::Update after an instruction that left the machine in `w`. */
  function Update<S>(t: Tape<S>, w: World<S>, log: WriteLog): (r: Tape<S>)
    requires t.idx < |t.states|
  {
    var open := Appended(Resumed(t), log);
    if open.frameNum != w.hw.frameNum then Stored(open, w).(frameNum := w.hw.frameNum) else open
  }

  /** `(idx - 1) % n` on an unsigned 64-bit index. */
  function Back(idx: nat, n: nat): (r: nat)
    requires n > 0
  {
    if idx > 0 then (idx - 1) % n else (INDEX_MOD - 1) % n
  }

  /** Every diff of the ring fits memory, as all that were ever stored do. */
  predicate Ranged<S>(t: Tape<S>) { forall i :: 0 <= i < |t.states| ==> AllInRange(t.states[i].diff) }

  lemma UpdateRanged<S>(t: Tape<S>, w: World<S>, log: WriteLog)
    requires t.Sane() && Ranged(t) && log.len <= 2 && L.LogInRange(log)
    ensures var r := Update(t, w, log); r.Sane() && Ranged(r)
  {
    var d := t.states[t.idx].diff;
    assert AllInRange(d + Entries(log)) && AllInRange([] + Entries(log));
    NextIndex(t.idx, |t.states|);
  }

  /** The diff undone by one reverse step fits memory. */
  predicate CanReverse<S>(s: Session<S>)
  {
    var t := s.tape;
    && t.Sane()
    && (t.live ==> AllInRange(t.states[t.idx].diff))
    && (!t.live && t.current > 1 ==> AllInRange(t.states[Back(t.idx, |t.states|)].diff))
  }

  function ReverseStep<S>(s: Session<S>): (r: Session<S>)
    requires CanReverse(s)
  {
    var t := s.tape;
    if t.current == 1 && !t.live then s
    else
      var t' := if t.live then t.(live := false) else t.(idx := Back(t.idx, |t.states|), current := t.current - 1);
      var state := t'.states[t'.idx];
      Session(t', World(state.hw, Undo(s.world.ram, state.diff)))
  }

  predicate CanForward<S>(s: Session<S>)
  {
    s.tape.Sane() && (s.tape.current < s.tape.recorded ==> AllInRange(s.tape.states[s.tape.idx].diff))
  }

  function ForwardStep<S>(s: Session<S>): (r: Session<S>)
    requires CanForward(s)
  {
    var t := s.tape;
    if t.current == t.recorded then s.(tape := t.(live := false))
    else
      var t' := t.(idx := (t.idx + 1) % |t.states|, current := t.current + 1);
      Session(t', World(t'.states[t'.idx].hw, Redo(s.world.ram, t.states[t.idx].diff)))
  }

  // ---- The history behind the ring -----------------------------------------

  /** Where the ring keeps state number c, 1 <= c <= recorded. */
  function Slot<S>(t: Tape<S>, c: nat): (i: int)
  {
    var i := t.idx + c - t.current;
    if i < 0 then i + |t.states| else if i >= |t.states| then i - |t.states| else i
  }

  lemma SlotLaws<S>(t: Tape<S>, c: nat, d: nat)
    requires t.Sane() && 1 <= c <= t.recorded && 1 <= d <= t.recorded
    ensures 0 <= Slot(t, c) < |t.states|
    ensures Slot(t, t.current) == t.idx
    ensures Slot(t, c) == Slot(t, d) ==> c == d
  {
  }

  lemma NextIndex(i: nat, n: nat)
    requires i < n
    ensures (i + 1) % n == if i + 1 == n then 0 else i + 1
  {
    if i + 1 == n { assert n % n == 0; }
  }

  predicate WrapsRight(n: nat) requires n > 0 { INDEX_MOD % n == 0 }

  /** The last residue is one before a multiple. */
  lemma LastResidue(m: nat, n: nat)
    requires n > 0
    ensures m % n == n - 1 <==> (m + 1) % n == 0
  {
    var q, r := m / n, m % n;
    assert m + 1 == q * n + (r + 1);
    if r == n - 1 {
      assert (q + 1) * n == m + 1;
      Multiple(q + 1, n);
    } else if (m + 1) % n == 0 {
      var p := (m + 1) / n;
      assert m + 1 == p * n;
      assert (p - q) * n == r + 1;
      Between(p - q, n, r + 1);
    }
  }

  /** Stepping back goes one slot down the ring when, and only when, index 0 is not crossed or n divides 2^64. */
  lemma BackIff(i: nat, n: nat)
    requires i < n
    ensures Back(i, n) == (if i == 0 then n - 1 else i - 1) <==> i > 0 || WrapsRight(n)
  {
    hide Back, WrapsRight;
    if i > 0 { BackInside(i, n); } else { BackFromZero(INDEX_MOD - 1, n); }
  }

  lemma BackInside(i: nat, n: nat)
    requires 0 < i < n
    ensures Back(i, n) == i - 1
  {
  }

  lemma BackFromZero(m: nat, n: nat)
    requires n > 0 && m == INDEX_MOD - 1
    ensures Back(0, n) == n - 1 <==> WrapsRight(n)
  {
    LastResidue(m, n);
    assert INDEX_MOD == m + 1;
  }

  lemma Multiple(q: nat, n: nat)
    requires n > 0
    ensures (q * n) % n == 0
  {
    var m := q * n;
    assert m == n * (m / n) + m % n;
    assert n * (q - m / n) == m % n;
    if m % n != 0 { Between(q - m / n, n, m % n); }
  }

  lemma Between(k: int, n: int, r: int)
    requires 0 < r < n
    ensures k * n != r
  {
    if k <= 0 { assert k * n <= 0; } else { assert k * n >= n; }
  }

  /** The ring the emulator ships with, 3000 frames, lands on slot 615 instead of 2999. */
  lemma ShippedRingWraps()
    ensures Back(0, RECORD_FRAMES_MAX) == 615 && !WrapsRight(RECORD_FRAMES_MAX)
  {
  }

  /** `h[c - 1]` is the world at the start of recorded frame c. While live the machine is the start of the last
      frame plus its open diff; while replaying it is exactly the start of the current frame. */
  ghost predicate Consistent<S>(s: Session<S>, h: seq<World<S>>)
  {
    var t := s.tape;
    && t.Sane() && |h| == t.recorded
    && (forall c :: 1 <= c <= t.recorded ==> StartsAt(t, h, c))
    && (forall c :: 1 <= c < t.recorded ==> Leads(t, h, c))
    && (t.live ==> t.current == t.recorded && Joins(h[t.current - 1].ram, t.states[t.idx].diff, s.world.ram))
    && (!t.live ==> s.world == h[t.current - 1])
  }

  ghost predicate StartsAt<S>(t: Tape<S>, h: seq<World<S>>, c: nat)
    requires t.Sane() && |h| == t.recorded && 1 <= c <= t.recorded
  {
    t.states[Slot(t, c)].hw == h[c - 1].hw
  }

  ghost predicate Leads<S>(t: Tape<S>, h: seq<World<S>>, c: nat)
    requires t.Sane() && |h| == t.recorded && 1 <= c < t.recorded
  {
    Joins(h[c - 1].ram, t.states[Slot(t, c)].diff, h[c].ram)
  }

  lemma ResetConsistent<S>(t: Tape<S>, w: World<S>)
    requires |t.states| > 0
    ensures Consistent(Session(Reset(t, w), w), [w])
  {
    NextIndex(0, |t.states|);
  }

  /** Moving the cursor leaves every state in its slot. */
  lemma Moved<S>(t: Tape<S>, t': Tape<S>, c: nat)
    requires t.Sane() && t'.Sane() && |t'.states| == |t.states|
    requires 1 <= c <= t.recorded
    requires t'.idx == Slot(t, t'.current) && t'.recorded <= t.recorded
    ensures Slot(t', c) == Slot(t, c)
  {
  }

  /** A replaying session whose cursor stands on frame c. */
  function At<S>(t: Tape<S>, h: seq<World<S>>, c: nat): (s: Session<S>)
    requires t.Sane() && |h| == t.recorded && 1 <= c <= t.recorded
  {
    Session(t.(idx := Slot(t, c), current := c, live := false), h[c - 1])
  }

  lemma AtConsistent<S>(s: Session<S>, h: seq<World<S>>, c: nat)
    requires Consistent(s, h) && 1 <= c <= s.tape.recorded
    ensures Consistent(At(s.tape, h, c), h)
    ensures forall d :: 1 <= d <= s.tape.recorded ==> At(At(s.tape, h, c).tape, h, d) == At(s.tape, h, d)
  {
    var t, t' := s.tape, At(s.tape, h, c).tape;
    forall d | 1 <= d <= t.recorded ensures Slot(t', d) == Slot(t, d) { Moved(t, t', d); }
    forall d | 1 <= d <= t.recorded ensures StartsAt(t', h, d) { assert StartsAt(t, h, d); }
    forall d | 1 <= d < t.recorded ensures Leads(t', h, d) { assert Leads(t, h, d); }
  }

  /** The frame `frames` steps of PlayReverse end on. */
  function ReverseTarget<S>(t: Tape<S>, frames: nat): (c: int)
    requires frames > 0
  {
    var c := if t.live then t.current - (frames - 1) else t.current - frames;
    if c < 1 then 1 else c
  }

  /** Reversing that many frames does not step below index 0, or the ring size divides 2^64. */
  predicate Clear<S>(t: Tape<S>, frames: nat)
    requires frames > 0
  {
    |t.states| > 0 && (WrapsRight(|t.states|) || t.current - ReverseTarget(t, frames) <= t.idx)
  }

  /** The next step back reaches the right frame when, and only when, it is clear, on every ring. */
  lemma ReverseOneIff<S>(s: Session<S>, h: seq<World<S>>)
    requires Consistent(s, h)
    ensures Clear(s.tape, 1) ==> CanReverse(s) && ReverseStep(s) == At(s.tape, h, ReverseTarget(s.tape, 1))
    ensures CanReverse(s) && ReverseStep(s).tape == At(s.tape, h, ReverseTarget(s.tape, 1)).tape <==> Clear(s.tape, 1)
  {
    var t := s.tape;
    SlotLaws(t, t.current, t.current);
    assert StartsAt(t, h, t.current);
    if !t.live && t.current > 1 {
      assert Leads(t, h, t.current - 1) && StartsAt(t, h, t.current - 1);
      hide Back, WrapsRight;
      BackIff(t.idx, |t.states|);
    }
  }

  /** After a clear step the remaining ones are clear. */
  lemma ClearOn<S>(t: Tape<S>, h: seq<World<S>>, frames: nat)
    requires t.Sane() && |h| == t.recorded && frames > 1 && Clear(t, frames)
    ensures Clear(t, 1) && Clear(At(t, h, ReverseTarget(t, 1)).tape, frames - 1)
  {
    hide WrapsRight;
  }

  lemma ForwardOne<S>(s: Session<S>, h: seq<World<S>>)
    requires Consistent(s, h) && !s.tape.live
    ensures CanForward(s)
    ensures ForwardStep(s) == At(s.tape, h, if s.tape.current == s.tape.recorded then s.tape.current else s.tape.current + 1)
  {
    var t := s.tape;
    SlotLaws(t, t.current, t.current);
    NextIndex(t.idx, |t.states|);
    assert StartsAt(t, h, t.current);
    if t.current < t.recorded { assert Leads(t, h, t.current) && StartsAt(t, h, t.current + 1); }
  }

  ghost function PlayReverse<S>(s: Session<S>, frames: nat): (r: Session<S>)
    decreases frames
  {
    if frames == 0 || !CanReverse(s) then s else PlayReverse(ReverseStep(s), frames - 1)
  }

  ghost function PlayForward<S>(s: Session<S>, frames: nat): (r: Session<S>)
    decreases frames
  {
    if frames == 0 || !CanForward(s) then s else PlayForward(ForwardStep(s), frames - 1)
  }

  /** Reversing lands on the start of the frame that many back, or of the oldest one kept. */
  lemma {:induction false} ReverseLands<S>(s: Session<S>, h: seq<World<S>>, frames: nat)
    requires Consistent(s, h) && frames > 0 && Clear(s.tape, frames)
    ensures PlayReverse(s, frames) == At(s.tape, h, ReverseTarget(s.tape, frames))
    ensures Consistent(PlayReverse(s, frames), h)
    decreases frames
  {
    hide WrapsRight, CanReverse, ReverseStep;
    var c := ReverseTarget(s.tape, 1);
    ReverseOneIff(s, h);
    AtConsistent(s, h, c);
    if frames > 1 {
      ClearOn(s.tape, h, frames);
      ReverseLands(At(s.tape, h, c), h, frames - 1);
    }
    AtConsistent(s, h, ReverseTarget(s.tape, frames));
  }

  lemma {:induction false} ReverseAppends<S>(s: Session<S>, frames: nat)
    ensures var r := PlayReverse(s, frames); PlayReverse(s, frames + 1) == if CanReverse(r) then ReverseStep(r) else r
    decreases frames
  {
    hide CanReverse, ReverseStep;
    if frames > 0 && CanReverse(s) { ReverseAppends(ReverseStep(s), frames - 1); }
  }

  /** On every ring: all frames on the way back are the recorded ones when, and only when, the way is clear. */
  lemma {:induction false} ReverseTracksIff<S>(s: Session<S>, h: seq<World<S>>, frames: nat)
    requires Consistent(s, h) && frames > 0
    ensures Clear(s.tape, frames)
            <==> forall k :: 1 <= k <= frames ==> PlayReverse(s, k).tape == At(s.tape, h, ReverseTarget(s.tape, k)).tape
  {
    hide CanReverse, ReverseStep, WrapsRight, PlayReverse;
    if Clear(s.tape, frames) {
      forall k | 1 <= k <= frames ensures PlayReverse(s, k).tape == At(s.tape, h, ReverseTarget(s.tape, k)).tape {
        ReverseLands(s, h, k);
      }
    } else {
      if frames > 1 { ReverseTracksIff(s, h, frames - 1); }
      if frames == 1 || Clear(s.tape, frames - 1) { FirstStray(s, h, frames); }
    }
  }

  /** The first step that is not clear leaves the recorded frames. */
  lemma FirstStray<S>(s: Session<S>, h: seq<World<S>>, frames: nat)
    requires Consistent(s, h) && frames > 0 && !Clear(s.tape, frames) && (frames > 1 ==> Clear(s.tape, frames - 1))
    ensures PlayReverse(s, frames).tape != At(s.tape, h, ReverseTarget(s.tape, frames)).tape
  {
    var r := PlayReverse(s, frames - 1);
    if frames > 1 { ReverseLands(s, h, frames - 1); }
    ReverseAppends(s, frames - 1);
    hide CanReverse, ReverseStep, PlayReverse, WrapsRight, Consistent;
    CurrentIsHere(s, h);
    ReverseOneIff(r, h);
    if frames > 1 { AtConsistent(s, h, ReverseTarget(s.tape, frames - 1)); }
    StrayTarget(s.tape, h, r.tape, frames);
  }

  lemma StrayTarget<S>(t: Tape<S>, h: seq<World<S>>, r: Tape<S>, frames: nat)
    requires t.Sane() && |h| == t.recorded && frames > 0 && !Clear(t, frames) && (frames > 1 ==> Clear(t, frames - 1))
    requires r == if frames == 1 then t else At(t, h, ReverseTarget(t, frames - 1)).tape
    ensures !Clear(r, 1) && ReverseTarget(r, 1) == ReverseTarget(t, frames) != r.current
    ensures Slot(r, ReverseTarget(r, 1)) == Slot(t, ReverseTarget(t, frames))
  {
    hide WrapsRight;
  }

  lemma CurrentIsHere<S>(s: Session<S>, h: seq<World<S>>)
    requires Consistent(s, h)
    ensures s.tape.Sane() && |h| == s.tape.recorded
    ensures !s.tape.live ==> s == At(s.tape, h, s.tape.current)
  {
    SlotLaws(s.tape, s.tape.current, s.tape.current);
  }

  /** Replaying forward lands on the start of the frame that many ahead, or of the last one recorded. */
  lemma {:induction false} ForwardLands<S>(s: Session<S>, h: seq<World<S>>, frames: nat)
    requires Consistent(s, h) && !s.tape.live
    ensures var c := s.tape.current + frames;
            && PlayForward(s, frames) == At(s.tape, h, if c <= s.tape.recorded then c else s.tape.recorded)
            && Consistent(PlayForward(s, frames), h)
    decreases frames
  {
    hide Consistent, Slot, ForwardStep, CanForward;
    var t := s.tape;
    CurrentIsHere(s, h);
    if frames > 0 {
      var c := if t.current == t.recorded then t.current else t.current + 1;
      ForwardOne(s, h);
      AtConsistent(s, h, c);
      ForwardLands(At(t, h, c), h, frames - 1);
    }
    AtConsistent(s, h, if t.current + frames <= t.recorded then t.current + frames else t.recorded);
  }

  /** Going back k frames and forward again is the identity on the tape, the machine and its memory. */
  lemma ReverseThenForward<S>(s: Session<S>, h: seq<World<S>>, k: nat)
    requires Consistent(s, h) && !s.tape.live && k < s.tape.current && (k > 0 ==> Clear(s.tape, k))
    ensures PlayForward(PlayReverse(s, k), k) == s
  {
    hide Consistent, Slot;
    var t := s.tape;
    CurrentIsHere(s, h);
    if k > 0 {
      ReverseLands(s, h, k);
      AtConsistent(s, h, t.current - k);
      ForwardLands(At(t, h, t.current - k), h, k);
    }
  }

  /** And so is going forward k recorded frames and back. */
  lemma ForwardThenReverse<S>(s: Session<S>, h: seq<World<S>>, k: nat)
    requires Consistent(s, h) && !s.tape.live && s.tape.current + k <= s.tape.recorded
    requires WrapsRight(|s.tape.states|) || s.tape.idx + k < |s.tape.states|
    ensures PlayReverse(PlayForward(s, k), k) == s
  {
    hide Consistent, WrapsRight;
    var t := s.tape;
    CurrentIsHere(s, h);
    if k > 0 {
      ForwardLands(s, h, k);
      AtConsistent(s, h, t.current + k);
      ReverseLands(At(t, h, t.current + k), h, k);
    }
  }

  /** While live, PlayForward drops the flag without undoing the open frame: it stays on the history when, and only
      when, the machine already stands at the frame start it has stored. */
  lemma ForwardWhileLiveIff<S>(s: Session<S>, h: seq<World<S>>, frames: nat)
    requires Consistent(s, h) && s.tape.live && frames > 0
    ensures var open := s.tape.states[s.tape.idx];
            Consistent(PlayForward(s, frames), h)
            <==> s.world.hw == open.hw && Undo(s.world.ram, open.diff) == s.world.ram
  {
    var t := s.tape;
    SlotLaws(t, t.current, t.current);
    var s' := s.(tape := t.(live := false));
    assert ForwardStep(s) == s';
    ForwardStops(s', frames - 1);
    assert StartsAt(t, h, t.current);
    var t' := s'.tape;
    forall c | 1 <= c <= t.recorded ensures StartsAt(t', h, c) { assert StartsAt(t, h, c); }
    forall c | 1 <= c < t.recorded ensures Leads(t', h, c) { assert Leads(t, h, c); }
  }

  lemma {:induction false} ForwardStops<S>(s: Session<S>, frames: nat)
    requires s.tape.Sane() && s.tape.current == s.tape.recorded && !s.tape.live
    ensures PlayForward(s, frames) == s
  {
    if frames > 0 && CanForward(s) { assert ForwardStep(s) == s; ForwardStops(s, frames - 1); }
  }

  // ---- Recording ----------------------------------------------------------

  /** The history after an instruction: the future is cut off, a new frame is added, the oldest may fall out. */
  function Extended<S>(t: Tape<S>, h: seq<World<S>>, w: World<S>): (h': seq<World<S>>)
    requires |h| == t.recorded >= t.current
  {
    var kept := if t.live then h else h[..t.current];
    if t.frameNum == w.hw.frameNum then kept
    else if |kept| < |t.states| then kept + [w] else (kept + [w])[1..]
  }

  lemma ResumedConsistent<S>(s: Session<S>, h: seq<World<S>>)
    requires Consistent(s, h)
    ensures Consistent(s.(tape := Resumed(s.tape)), if s.tape.live then h else h[..s.tape.current])
  {
    var t := s.tape;
    if !t.live {
      var t', h' := Resumed(t), h[..t.current];
      forall c | 1 <= c <= t.current ensures StartsAt(t', h', c) { SlotLaws(t, c, t.current); assert StartsAt(t, h, c); }
      forall c | 1 <= c < t.current ensures Leads(t', h', c) { SlotLaws(t, c, t.current); assert Leads(t, h, c); }
      SlotLaws(t', t.current, t.current);
      assert AllInRange([]) && Redo(s.world.ram, []) == s.world.ram;
    }
  }

  lemma AppendedConsistent<S>(s: Session<S>, h: seq<World<S>>, w: World<S>, log: WriteLog)
    requires Consistent(s, h) && s.tape.live && L.Exact(s.world.ram, w.ram, log)
    ensures Consistent(Session(Appended(s.tape, log), w), h)
  {
    var t := s.tape;
    var t' := Appended(t, log);
    ExactJoins(s.world.ram, w.ram, log);
    JoinsConcat(h[t.current - 1].ram, t.states[t.idx].diff, s.world.ram, Entries(log), w.ram);
    forall c | 1 <= c <= t.recorded ensures StartsAt(t', h, c) { SlotLaws(t, c, t.current); assert StartsAt(t, h, c); }
    forall c | 1 <= c < t.recorded ensures Leads(t', h, c) { SlotLaws(t, c, t.current); assert Leads(t, h, c); }
  }

  lemma StoredConsistent<S>(s: Session<S>, h: seq<World<S>>)
    requires Consistent(s, h) && s.tape.live
    ensures var all := h + [s.world];
            Consistent(s.(tape := Stored(s.tape, s.world)), if |h| < |s.tape.states| then all else all[1..])
  {
    hide Slot;
    var t, w := s.tape, s.world;
    var t' := Stored(t, w);
    var shift := if |h| < |t.states| then 0 else 1;
    var h' := (h + [w])[shift..];
    assert shift == 0 ==> h' == h + [w];
    NextIndex(t.idx, |t.states|);
    SlotLaws(t', t'.current, t'.current);
    forall c | 1 <= c < t'.recorded
      ensures StartsAt(t', h', c)
    {
      SlotKept(t, t', shift, c);
      SlotLaws(t', c, t'.current);
      assert StartsAt(t, h, c + shift);
    }
    forall c | 1 <= c < t'.recorded
      ensures Leads(t', h', c)
    {
      SlotKept(t, t', shift, c);
      SlotLaws(t', c, t'.current);
      if c + shift < t.recorded { assert Leads(t, h, c + shift); } else { SlotLaws(t, t.current, t.current); }
    }
    assert StartsAt(t', h', t'.recorded);
    assert AllInRange([]) && Redo(w.ram, []) == w.ram;
  }

  lemma SlotKept<S>(t: Tape<S>, t': Tape<S>, shift: nat, c: nat)
    requires t.Sane() && t.current == t.recorded && |t'.states| == |t.states|
    requires shift == (if t.recorded < |t.states| then 0 else 1)
    requires t'.current == t'.recorded == t.recorded + 1 - shift
    requires t'.idx == (if t.idx + 1 == |t.states| then 0 else t.idx + 1)
    requires 1 <= c < t'.recorded
    ensures Slot(t', c) == Slot(t, c + shift)
  {
  }

  lemma UpdateConsistent<S>(s: Session<S>, h: seq<World<S>>, w: World<S>, log: WriteLog)
    requires Consistent(s, h) && L.Exact(s.world.ram, w.ram, log)
    ensures var t' := Update(s.tape, w, log);
            Consistent(Session(t', w), Extended(s.tape, h, w)) && t'.live && t'.frameNum == w.hw.frameNum
  {
    var h0 := if s.tape.live then h else h[..s.tape.current];
    ResumedConsistent(s, h);
    var s1 := s.(tape := Resumed(s.tape));
    AppendedConsistent(s1, h0, w, log);
    var s2 := Session(Appended(s1.tape, log), w);
    if s2.tape.frameNum != w.hw.frameNum {
      StoredConsistent(s2, h0);
      var t3 := Stored(s2.tape, w);
      FrameNumIrrelevant(t3, w, if |h0| < |s.tape.states| then h0 + [w] else (h0 + [w])[1..], w.hw.frameNum);
    }
  }

  lemma FrameNumIrrelevant<S>(t: Tape<S>, w: World<S>, h: seq<World<S>>, n: nat)
    requires Consistent(Session(t, w), h)
    ensures Consistent(Session(t.(frameNum := n), w), h)
  {
    var t' := t.(frameNum := n);
    forall c | 1 <= c <= t.recorded ensures StartsAt(t', h, c) { assert StartsAt(t, h, c); }
    forall c | 1 <= c < t.recorded ensures Leads(t', h, c) { assert Leads(t, h, c); }
  }

  // ---- Whole sessions -----------------------------------------------------

  /** An instruction that leaves the machine in `world`, or a playback request. */
  datatype Op<S> = Execute(world: World<S>, log: WriteLog) | Reverse(frames: nat) | Forward(frames: nat)

  /** Instructions have exact logs; reversing is clear; forward playback is asked for while replaying. */
  ghost predicate Allowed<S>(s: Session<S>, op: Op<S>)
  {
    match op
    case Execute(w, log) => L.Exact(s.world.ram, w.ram, log)
    case Reverse(frames) => frames > 0 ==> Clear(s.tape, frames)
    case Forward(frames) => frames > 0 ==> !s.tape.live
  }

  ghost function Step<S>(s: Session<S>, op: Op<S>): (s': Session<S>)
    requires s.tape.idx < |s.tape.states|
  {
    match op
    case Execute(w, log) => Session(Update(s.tape, w, log), w)
    case Reverse(frames) => PlayReverse(s, frames)
    case Forward(frames) => PlayForward(s, frames)
  }

  function HistoryStep<S>(s: Session<S>, h: seq<World<S>>, op: Op<S>): (h': seq<World<S>>)
    requires |h| == s.tape.recorded >= s.tape.current
  {
    if op.Execute? then Extended(s.tape, h, op.world) else h
  }

  lemma StepConsistent<S>(s: Session<S>, h: seq<World<S>>, op: Op<S>)
    requires Consistent(s, h) && Allowed(s, op)
    ensures Consistent(Step(s, op), HistoryStep(s, h, op))
  {
    match op
    case Execute(w, log) => UpdateConsistent(s, h, w, log);
    case Reverse(frames) =>
      if frames > 0 { ReverseLands(s, h, frames); AtConsistent(s, h, ReverseTarget(s.tape, frames)); }
    case Forward(frames) =>
      if frames > 0 {
        ForwardLands(s, h, frames);
        var c := s.tape.current + frames;
        AtConsistent(s, h, if c <= s.tape.recorded then c else s.tape.recorded);
      }
  }

  /** A run of operations as the sequence of sessions it passes through. */
  ghost predicate Runs<S>(t: nat -> Session<S>, ops: nat -> Op<S>, k: nat)
  {
    forall i :: 0 <= i < k ==> t(i).tape.idx < |t(i).tape.states| && Allowed(t(i), ops(i)) && t(i + 1) == Step(t(i), ops(i))
  }

  ghost function HistoryAt<S>(t: nat -> Session<S>, ops: nat -> Op<S>, k: nat): (h: seq<World<S>>)
  {
    if k == 0 then [t(0).world]
    else
      var h := HistoryAt(t, ops, k - 1);
      var s := t(k - 1);
      if |h| == s.tape.recorded >= s.tape.current then HistoryStep(s, h, ops(k - 1)) else h
  }

  /** Time travel: from Reset, through any mix of instructions and playback, the machine always stands on the one
      recorded history, full ring or not, as long as no reverse steps below index 0 of a ring that wraps wrongly. */
  lemma {:induction false} TimeTravel<S>(blank: Tape<S>, t: nat -> Session<S>, ops: nat -> Op<S>, k: nat)
    requires |blank.states| > 0 && t(0).tape == Reset(blank, t(0).world)
    requires Runs(t, ops, k)
    ensures Consistent(t(k), HistoryAt(t, ops, k)) && |t(k).tape.states| == |blank.states|
  {
    if k == 0 {
      ResetConsistent(blank, t(0).world);
    } else {
      TimeTravel(blank, t, ops, k - 1);
      assert t(k) == Step(t(k - 1), ops(k - 1));
      RingSize(t(k - 1), HistoryAt(t, ops, k - 1), ops(k - 1));
      StepConsistent(t(k - 1), HistoryAt(t, ops, k - 1), ops(k - 1));
    }
  }

  lemma RingSize<S>(s: Session<S>, h: seq<World<S>>, op: Op<S>)
    requires Consistent(s, h) && Allowed(s, op)
    ensures |Step(s, op).tape.states| == |s.tape.states|
    ensures s.tape.idx == s.tape.current && Step(s, op).tape.recorded < |s.tape.states| ==>
              Step(s, op).tape.idx == Step(s, op).tape.current
  {
    match op
    case Execute(_, _) => NextIndex(s.tape.idx, |s.tape.states|);
    case Reverse(frames) => if frames > 0 { ReverseLands(s, h, frames); }
    case Forward(frames) => if frames > 0 { ForwardLands(s, h, frames); }
  }

  /** The same operations without the demand that reversing is clear. */
  ghost predicate Wanted<S>(s: Session<S>, op: Op<S>) { op.Reverse? || Allowed(s, op) }

  /** From Reset, every reverse is clear while the ring has not filled, and always if its size divides 2^64. */
  lemma {:induction false} ClearWhileUnfilled<S>(blank: Tape<S>, t: nat -> Session<S>, ops: nat -> Op<S>, k: nat)
    requires |blank.states| > 0 && t(0).tape == Reset(blank, t(0).world)
    requires forall i :: 0 <= i < k ==> t(i).tape.idx < |t(i).tape.states| && Wanted(t(i), ops(i)) && t(i + 1) == Step(t(i), ops(i))
    requires forall i :: 0 <= i <= k ==> WrapsRight(|blank.states|) || t(i).tape.recorded < |blank.states|
    ensures Runs(t, ops, k) && (WrapsRight(|blank.states|) || t(k).tape.idx == t(k).tape.current)
  {
    hide WrapsRight;
    if k == 0 {
      NextIndex(0, |blank.states|);
      assert t(0).tape.recorded == |blank.states| || t(0).tape.idx == t(0).tape.current;
    } else {
      hide Consistent, HistoryAt, Step, L.Exact, Allowed, Wanted, Runs, Reset;
      ClearWhileUnfilled(blank, t, ops, k - 1);
      TimeTravel(blank, t, ops, k - 1);
      assert Wanted(t(k - 1), ops(k - 1));
      ClearStep(t(k - 1), HistoryAt(t, ops, k - 1), ops(k - 1));
      RunsOn(t, ops, k);
    }
  }

  lemma RunsOn<S>(t: nat -> Session<S>, ops: nat -> Op<S>, k: nat)
    requires k > 0 && Runs(t, ops, k - 1)
    requires t(k - 1).tape.idx < |t(k - 1).tape.states| && Allowed(t(k - 1), ops(k - 1)) && t(k) == Step(t(k - 1), ops(k - 1))
    ensures Runs(t, ops, k)
  {
    hide Allowed, Step;
  }

  lemma ClearStep<S>(s: Session<S>, h: seq<World<S>>, op: Op<S>)
    requires Consistent(s, h) && Wanted(s, op) && (WrapsRight(|s.tape.states|) || s.tape.idx == s.tape.current)
    ensures Allowed(s, op) && |Step(s, op).tape.states| == |s.tape.states|
    ensures s.tape.idx == s.tape.current && Step(s, op).tape.recorded < |s.tape.states| ==>
              Step(s, op).tape.idx == Step(s, op).tape.current
  {
    CurrentIsHere(s, h);
    hide Consistent, Step, L.Exact, WrapsRight, Clear;
    if op.Reverse? && op.frames > 0 { NotBelowZero(s.tape, op.frames); }
    RingSize(s, h, op);
  }

  lemma NotBelowZero<S>(t: Tape<S>, frames: nat)
    requires t.Sane() && frames > 0 && (WrapsRight(|t.states|) || t.idx == t.current)
    ensures Clear(t, frames)
  {
    hide WrapsRight;
  }

  /** The ring that has just filled stands on index 0: the open frame can be undone on every ring, the frame before
      it reached when, and only when, the size divides 2^64. */
  lemma FullRingIff<S>(s: Session<S>, h: seq<World<S>>)
    requires Consistent(s, h) && s.tape.idx == s.tape.current && s.tape.live && s.tape.recorded + 1 == |s.tape.states| > 1
    ensures var full := s.(tape := Stored(s.tape, s.world));
            var n := |s.tape.states|;
            && full.tape.recorded == n && full.tape.idx == 0
            && Consistent(full, h + [s.world])
            && PlayReverse(full, 1) == At(full.tape, h + [s.world], n)
            && (PlayReverse(full, 2).tape == At(full.tape, h + [s.world], n - 1).tape <==> WrapsRight(n))
  {
    hide WrapsRight, Back;
    var n := |s.tape.states|;
    NextIndex(s.tape.idx, n);
    StoredConsistent(s, h);
    var full := s.(tape := Stored(s.tape, s.world));
    ReverseLands(full, h + [s.world], 1);
    ReverseTracksIff(full, h + [s.world], 2);
  }

  /** The shipped ring of 3000 frames, full and live on index 0: two steps back end on slot 615 with the machine of
      frame 615, where frame 2999 was asked for. */
  lemma ShippedRingStrays<S>(s: Session<S>, h: seq<World<S>>)
    requires Consistent(s, h) && s.tape.live && s.tape.idx == 0
    requires |s.tape.states| == s.tape.recorded == RECORD_FRAMES_MAX
    ensures var r := PlayReverse(s, 2);
            && r.tape.idx == 615 && r.tape.current == 2999 && r.world.hw == h[614].hw
            && At(s.tape, h, 2999).tape.idx == 2999
  {
    var t := s.tape;
    ShippedRingWraps();
    hide WrapsRight;
    ReverseLands(s, h, 1);
    var r := PlayReverse(s, 1);
    AtConsistent(s, h, t.current);
    assert Slot(r.tape, 615) == 615;
    assert Leads(r.tape, h, 615) && StartsAt(r.tape, h, 615);
    ReverseAppends(s, 1);
  }

  /** Concretely: one write after a reset, and PlayForward pressed while live leaves the history. */
  lemma ForwardWhileLiveFails(ram: Ram)
    requires ram[0] == 0
    ensures var w0 := World(Hw(0, ()), ram);
            var blank := Tape([Frame(Hw(0, ()), []), Frame(Hw(0, ()), [])], 0, 0, 0, true, 0);
            var log := WriteLog(Entry(0, 0, 1), Entry(0, 0, 0), 1);
            var w1 := World(Hw(0, ()), ram[0 := 1]);
            var s := Session(Update(Reset(blank, w0), w1, log), w1);
            Consistent(s, [w0]) && !Consistent(PlayForward(s, 1), [w0])
  {
    var w0 := World(Hw(0, ()), ram);
    var blank := Tape([Frame(Hw(0, ()), []), Frame(Hw(0, ()), [])], 0, 0, 0, true, 0);
    var log := WriteLog(Entry(0, 0, 1), Entry(0, 0, 0), 1);
    var w1 := World(Hw(0, ()), ram[0 := 1]);
    var r := Session(Reset(blank, w0), w0);
    ResetConsistent(blank, w0);
    assert ram[0 := 1][0 := 0] == ram;
    UpdateConsistent(r, [w0], w1, log);
    var s := Session(Update(r.tape, w1, log), w1);
    assert Consistent(s, [w0]);
    ForwardWhileLiveIff(s, [w0], 1);
    var open := s.tape.states[s.tape.idx];
    assert open.diff == [Entry(0, 0, 1)];
    assert open.diff[..0] == [];
    assert Undo(w1.ram, open.diff)[0] == 0;
  }
}
