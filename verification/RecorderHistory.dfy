/** What the recorder is for, told by the machine states alone: a list of frame starts and a cursor on it. The ring of
    diffs of libs/v6core/src/recorder.cpp refines that list over every session. */
module RecorderHistory {
  import opened Memory
  import R = Recorder

  /** The frame starts kept, oldest first; the cursor, counted from 1; whether the machine runs or is being replayed; and
      the machine that ran last. */
  datatype Film<S> = Film(frames: seq<R.World<S>>, at: nat, live: bool, last: R.World<S>)

  /** The newest `n` of a list. */
  function Newest<T>(xs: seq<T>, n: nat): (r: seq<T>) { if |xs| <= n then xs else xs[|xs| - n..] }

  /** An instruction cuts off the frames ahead of the cursor. It starts a frame exactly when it ends in another display
      frame than the instruction that ran before it, whether or not the machine was replayed in between. */
  function Ran<S>(f: Film<S>, w: R.World<S>, capacity: nat): (r: Film<S>)
    requires f.at <= |f.frames|
  {
    var kept := if f.live then f.frames else f.frames[..f.at];
    var frames := if w.hw.frameNum == f.last.hw.frameNum then kept else Newest(kept + [w], capacity);
    Film(frames, |frames|, true, w)
  }

  /** The first step back while live goes to the start of the open frame; none goes before the oldest. */
  function Back<S>(f: Film<S>, n: nat): (r: Film<S>)
  {
    if n == 0 then f
    else
      var back := if f.live then n - 1 else n;
      f.(at := if back < f.at then f.at - back else 1, live := false)
  }

  function Ahead<S>(f: Film<S>, n: nat): (r: Film<S>)
  {
    f.(at := if f.at + n <= |f.frames| then f.at + n else |f.frames|)
  }

  function Next<S>(f: Film<S>, op: R.Op<S>, capacity: nat): (r: Film<S>)
    requires f.at <= |f.frames|
  {
    match op
    case Execute(w, _) => Ran(f, w, capacity)
    case Reverse(n) => Back(f, n)
    case Forward(n) => Ahead(f, n)
  }

  /** The tape stands where the film stands, on the same history. */
  ghost predicate Shows<S>(s: R.Session<S>, f: Film<S>)
  {
    && R.Consistent(s, f.frames) && s.tape.current == f.at && s.tape.live == f.live
    && s.tape.frameNum == f.last.hw.frameNum
  }

  lemma ShowsSize<S>(s: R.Session<S>, f: Film<S>)
    requires Shows(s, f)
    ensures 1 <= f.at <= |f.frames| == s.tape.recorded <= |s.tape.states| && s.tape.idx < |s.tape.states|
  {
  }

  lemma RanShows<S>(s: R.Session<S>, f: Film<S>, op: R.Op<S>)
    requires Shows(s, f) && op.Execute? && R.Allowed(s, op)
    ensures f.at <= |f.frames| && s.tape.idx < |s.tape.states|
    ensures Shows(R.Step(s, op), Ran(f, op.world, |s.tape.states|))
  {
    ShowsSize(s, f);
    R.UpdateConsistent(s, f.frames, op.world, op.log);
    var r := R.Extended(s.tape, f.frames, op.world);
    assert r == Ran(f, op.world, |s.tape.states|).frames;
    LiveCurrent(R.Step(s, op), r);
    hide R.Consistent, R.Update;
  }

  lemma LiveCurrent<S>(s: R.Session<S>, h: seq<R.World<S>>)
    requires R.Consistent(s, h) && s.tape.live
    ensures s.tape.current == |h|
  {
  }

  lemma BackShows<S>(s: R.Session<S>, f: Film<S>, op: R.Op<S>)
    requires Shows(s, f) && op.Reverse? && R.Allowed(s, op)
    ensures f.at <= |f.frames| && s.tape.idx < |s.tape.states|
    ensures Shows(R.Step(s, op), Back(f, op.frames)) && |R.Step(s, op).tape.states| == |s.tape.states|
  {
    ShowsSize(s, f);
    hide R.Consistent, R.Clear, R.Slot, R.CanReverse, R.ReverseStep;
    if op.frames > 0 { R.ReverseLands(s, f.frames, op.frames); }
  }

  lemma AheadShows<S>(s: R.Session<S>, f: Film<S>, op: R.Op<S>)
    requires Shows(s, f) && op.Forward? && R.Allowed(s, op)
    ensures f.at <= |f.frames| && s.tape.idx < |s.tape.states|
    ensures Shows(R.Step(s, op), Ahead(f, op.frames)) && |R.Step(s, op).tape.states| == |s.tape.states|
  {
    ShowsSize(s, f);
    hide R.Consistent, R.Slot, R.CanForward, R.ForwardStep;
    if op.frames > 0 { R.ForwardLands(s, f.frames, op.frames); }
  }

  lemma StepShows<S>(s: R.Session<S>, f: Film<S>, op: R.Op<S>)
    requires Shows(s, f) && R.Allowed(s, op)
    ensures f.at <= |f.frames| && s.tape.idx < |s.tape.states|
    ensures Shows(R.Step(s, op), Next(f, op, |s.tape.states|)) && |R.Step(s, op).tape.states| == |s.tape.states|
  {
    hide Ran, Back, Ahead, R.Allowed, R.Step;
    ShowsSize(s, f);
    match op
    case Execute(_, _) => RanShows(s, f, op); R.RingSize(s, f.frames, op);
    case Reverse(_) => BackShows(s, f, op);
    case Forward(_) => AheadShows(s, f, op);
  }

  /** A run of the film: it starts with one frame, live on it. */
  ghost predicate Films<S>(f: nat -> Film<S>, w: R.World<S>, ops: nat -> R.Op<S>, capacity: nat, k: nat)
  {
    && f(0) == Film([w], 1, true, w)
    && forall i :: 0 <= i < k && f(i).at <= |f(i).frames| ==> f(i + 1) == Next(f(i), ops(i), capacity)
  }

  /** Time travel refines the film: from Reset, through any mix of instructions with exact logs and clear playback, the
      tape stands on the film's frame of the film's list, and while replaying the machine is that frame. The list is
      given by the machine states alone. */
  lemma {:induction false} TimeTravelRefines<S>(
    blank: R.Tape<S>, t: nat -> R.Session<S>, ops: nat -> R.Op<S>, f: nat -> Film<S>, k: nat)
    requires |blank.states| > 0 && t(0).tape == R.Reset(blank, t(0).world)
    requires R.Runs(t, ops, k) && Films(f, t(0).world, ops, |blank.states|, k)
    ensures Shows(t(k), f(k)) && |t(k).tape.states| == |blank.states|
    ensures 1 <= f(k).at <= |f(k).frames| <= |blank.states|
    ensures !f(k).live ==> t(k).world == f(k).frames[f(k).at - 1]
  {
    if k == 0 {
      R.ResetConsistent(blank, t(0).world);
      assert R.Session(R.Reset(blank, t(0).world), t(0).world) == t(0);
    } else {
      hide Next;
      TimeTravelRefines(blank, t, ops, f, k - 1);
      hide R.Consistent, R.Reset, R.Allowed, R.Step;
      StepShows(t(k - 1), f(k - 1), ops(k - 1));
    }
    ShowsSize(t(k), f(k));
  }

  // ---- Recording without playback ----------------------------------------------

  /** The first machine state, and then each one whose frame number differs from that of the state before. */
  function FrameStarts<S>(w: nat -> R.World<S>, n: nat): (r: seq<R.World<S>>)
  {
    if n == 0 then [w(0)]
    else FrameStarts(w, n - 1) + if w(n).hw.frameNum != w(n - 1).hw.frameNum then [w(n)] else []
  }

  lemma NewestAgain<T>(xs: seq<T>, x: T, n: nat)
    ensures Newest(Newest(xs, n) + [x], n) == Newest(xs + [x], n)
  {
  }

  /** After any number of instructions from Reset, the recorded frames are the newest of the frame starts, as many as the
      ring holds, and the machine is the last of them plus the open diff. */
  lemma {:induction false} RecordsFrameStarts<S>(
    blank: R.Tape<S>, t: nat -> R.Session<S>, ops: nat -> R.Op<S>, w: nat -> R.World<S>, n: nat)
    requires |blank.states| > 0 && t(0).tape == R.Reset(blank, t(0).world) && t(0).world == w(0)
    requires R.Runs(t, ops, n)
    requires forall i: nat :: i < n ==> ops(i).Execute? && ops(i).world == w(i + 1)
    ensures t(n).world == w(n)
    ensures Shows(t(n), Film(Newest(FrameStarts(w, n), |blank.states|), t(n).tape.recorded, true, w(n)))
    ensures |t(n).tape.states| == |blank.states|
  {
    if n == 0 {
      R.ResetConsistent(blank, t(0).world);
      assert R.Session(R.Reset(blank, t(0).world), t(0).world) == t(0);
    } else {
      RecordsFrameStarts(blank, t, ops, w, n - 1);
      var c := |blank.states|;
      var f := Film(Newest(FrameStarts(w, n - 1), c), t(n - 1).tape.recorded, true, w(n - 1));
      assert t(n).world == w(n);
      StepShows(t(n - 1), f, ops(n - 1));
      hide R.Consistent, R.Reset, R.Allowed, R.Update;
      NewestAgain(FrameStarts(w, n - 1), w(n), c);
      ShowsSize(t(n), Ran(f, w(n), c));
      assert FrameStarts(w, n - 1) + [] == FrameStarts(w, n - 1);
    }
  }

  /** The first instruction after a playback is compared with the last one that ran, not with the frame replayed: it
      starts a new frame right there exactly when the two ended in different display frames. */
  lemma ResumeRecords<S>(s: R.Session<S>, f: Film<S>, op: R.Op<S>)
    requires Shows(s, f) && !f.live && op.Execute? && R.Allowed(s, op)
    ensures s.tape.idx < |s.tape.states| && f.at <= |f.frames|
    ensures var r := R.Step(s, op).tape;
            && r.live && r.frameNum == op.world.hw.frameNum
            && R.Consistent(R.Step(s, op),
                 if op.world.hw.frameNum == f.last.hw.frameNum then f.frames[..f.at]
                 else Newest(f.frames[..f.at] + [op.world], |s.tape.states|))
  {
    RanShows(s, f, op);
    ShowsSize(s, f);
    R.RingSize(s, f.frames, op);
    hide R.Consistent, R.Allowed, R.Update;
    ShowsSize(R.Step(s, op), Ran(f, op.world, |s.tape.states|));
  }
}
