/** The code-performance sampler of libs/v6core/include/core/code_perf.h, over real numbers. */
module CodePerf {
  import opened Bytes

  const MAX_TEST_COUNT := 20000

  datatype Clock = None | At(cc: nat)
  datatype Perf = Perf(name: string, start: word, end: word, average: real, count: nat, sample: Clock, active: bool)

  datatype Event = Event(addr: word, cc: nat)

  function Checked(p: Perf, e: Event): (r: Perf)
  {
    if !p.active || p.count >= MAX_TEST_COUNT then p
    else if p.start == e.addr then p.(sample := At(e.cc))
    else if p.end == e.addr && p.sample.At? then
      if e.cc < p.sample.cc then p.(sample := None)
      else
        var count := p.count + 1;
        var duration := (e.cc - p.sample.cc) as real;
        p.(count := count, average := p.average + (duration - p.average) * (1.0 / count as real), sample := None)
    else p
  }

  function Run(p: Perf, events: seq<Event>): (r: Perf)
  {
    if |events| == 0 then p else Checked(Run(p, events[..|events| - 1]), events[|events| - 1])
  }

  // ---- What a sample is, by the events alone -----------------------------------

  /** Event `i` hits the start, and neither end point is hit again before event `n`. */
  predicate Opens(start: word, end: word, events: seq<Event>, i: nat, n: nat)
    requires n <= |events|
  {
    i < n && events[i].addr == start && forall k :: i < k < n ==> events[k].addr != start && events[k].addr != end
  }

  /** Event `n` hits the end and closes the latest start hit, `i`. */
  predicate Completes(start: word, end: word, events: seq<Event>, i: nat, n: nat)
    requires n < |events|
  {
    start != end && events[n].addr == end && Opens(start, end, events, i, n) && events[i].cc <= events[n].cc
  }

  /** The durations of all completed samples, oldest first. */
  ghost function Durations(start: word, end: word, events: seq<Event>): (d: seq<nat>)
  {
    if |events| == 0 then []
    else
      var n := |events| - 1;
      var before := Durations(start, end, events[..n]);
      if i: nat :| Completes(start, end, events, i, n) then before + [events[n].cc - events[i].cc] else before
  }

  function Sum(d: seq<nat>): (s: nat) { if |d| == 0 then 0 else Sum(d[..|d| - 1]) + d[|d| - 1] }

  function Mean(d: seq<nat>): (m: real) { if |d| == 0 then 0.0 else Sum(d) as real / |d| as real }

  /** Folding one more duration into the mean of the others gives the mean of all. */
  lemma MeanStep(d: seq<nat>, x: nat)
    ensures Mean(d) + (x as real - Mean(d)) * (1.0 / (|d| + 1) as real) == Mean(d + [x])
  {
    var n, s := |d| as real, Sum(d) as real;
    assert (d + [x])[..|d + [x]| - 1] == d;
    Weighted(Mean(d), n, s, x as real);
  }

  lemma Weighted(m: real, n: real, s: real, x: real)
    requires n >= 0.0 && m * n == s && (n == 0.0 ==> m == 0.0)
    ensures m + (x - m) * (1.0 / (n + 1.0)) == (s + x) / (n + 1.0)
  {
    var k := n + 1.0;
    var w := 1.0 / k;
    assert w * k == 1.0;
    assert (m + (x - m) * w) * k == m * k + (x - m) * (w * k) == m * n + x;
    Divides(m + (x - m) * w, k, s + x);
  }

  lemma Divides(y: real, k: real, t: real)
    requires k > 0.0 && y * k == t
    ensures y == t / k
  {
    assert t / k == (y * k) / k == y;
  }

  lemma OneOpen(start: word, end: word, events: seq<Event>, i: nat, j: nat, n: nat)
    requires n <= |events| && Opens(start, end, events, i, n) && Opens(start, end, events, j, n)
    ensures i == j
  {
  }

  lemma OpenPrefix(start: word, end: word, events: seq<Event>, i: nat, n: nat)
    requires n < |events|
    ensures Opens(start, end, events[..n], i, n) == Opens(start, end, events, i, n)
    ensures Opens(start, end, events, i, n + 1) <==>
              (i == n && events[n].addr == start) || (Opens(start, end, events, i, n) && events[n].addr != start && events[n].addr != end)
  {
    if Opens(start, end, events[..n], i, n) {
      forall k | i < k < n ensures events[k].addr != start && events[k].addr != end { assert events[..n][k] == events[k]; }
    }
    if Opens(start, end, events, i, n) {
      forall k | i < k < n ensures events[..n][k].addr != start && events[..n][k].addr != end { assert events[..n][k] == events[k]; }
    }
  }

  predicate NoneOpen(start: word, end: word, events: seq<Event>)
  {
    forall i: nat :: i < |events| ==> !Opens(start, end, events, i, |events|)
  }

  predicate OpenSince(start: word, end: word, events: seq<Event>, cc: nat)
  {
    exists i: nat :: i < |events| && Opens(start, end, events, i, |events|) && events[i].cc == cc
  }

  /** The start the sampler holds is the open one. */
  predicate Holds(sample: Clock, start: word, end: word, events: seq<Event>)
  {
    match sample
    case None => NoneOpen(start, end, events)
    case At(cc) => OpenSince(start, end, events, cc)
  }

  function Capped(d: seq<nat>): (r: seq<nat>) { if |d| <= 20000 then d else d[..20000] }

  /** The sampler agrees with the definition: the count, the mean, and, below the cap, the start it holds. */
  ghost predicate Samples(p: Perf, start: word, end: word, events: seq<Event>)
  {
    var d := Capped(Durations(start, end, events));
    && p.start == start && p.end == end && p.active
    && p.count == |d| && p.average == Mean(d)
    && (p.count < MAX_TEST_COUNT && start != end ==> Holds(p.sample, start, end, events))
  }

  lemma Quiet(start: word, end: word, events: seq<Event>)
    requires |events| > 0
    requires start == end || events[|events| - 1].addr != end || NoneOpen(start, end, events[..|events| - 1])
    ensures Durations(start, end, events) == Durations(start, end, events[..|events| - 1])
  {
    var n := |events| - 1;
    if i: nat :| Completes(start, end, events, i, n) { OpenPrefix(start, end, events, i, n); }
  }

  lemma SampleOf(start: word, end: word, events: seq<Event>, i: nat)
    requires |events| > 0 && start != end && events[|events| - 1].addr == end && Opens(start, end, events, i, |events| - 1)
    ensures var n := |events| - 1;
            Durations(start, end, events) ==
              Durations(start, end, events[..n]) + if events[i].cc <= events[n].cc then [events[n].cc - events[i].cc] else []
  {
    var n := |events| - 1;
    forall j: nat | Opens(start, end, events, j, n) ensures j == i { OneOpen(start, end, events, i, j, n); }
    if events[i].cc <= events[n].cc { assert Completes(start, end, events, i, n); }
  }

  lemma HoldsOn(sample: Clock, start: word, end: word, events: seq<Event>)
    requires |events| > 0 && Holds(sample, start, end, events[..|events| - 1]) && start != end
    ensures var e := events[|events| - 1];
            Holds(if e.addr == start then At(e.cc) else if e.addr == end then None else sample, start, end, events)
  {
    var n := |events| - 1;
    var e := events[n];
    if e.addr == start {
      assert Opens(start, end, events, n, n + 1);
    } else if e.addr == end || sample.None? {
      forall i: nat | i < |events| ensures !Opens(start, end, events, i, |events|) {
        OpenPrefix(start, end, events, i, n);
      }
    } else {
      var i: nat :| i < n && Opens(start, end, events[..n], i, n) && events[..n][i].cc == sample.cc;
      OpenPrefix(start, end, events, i, n);
      assert Opens(start, end, events, i, |events|) && events[i].cc == sample.cc;
    }
  }

  lemma CapReached(d: seq<nat>, d': seq<nat>)
    requires d <= d' && |Capped(d)| >= MAX_TEST_COUNT
    ensures Capped(d') == Capped(d)
  {
    assert d[..MAX_TEST_COUNT] == d'[..MAX_TEST_COUNT];
    assert |d| == MAX_TEST_COUNT ==> d[..MAX_TEST_COUNT] == d;
    assert |d'| == MAX_TEST_COUNT ==> d'[..MAX_TEST_COUNT] == d';
  }

  lemma Grows(start: word, end: word, events: seq<Event>)
    requires |events| > 0
    ensures Durations(start, end, events[..|events| - 1]) <= Durations(start, end, events)
  {
  }

  /** An end hit below the cap: the open sample, if any, is closed. */
  lemma EndHit(p: Perf, start: word, end: word, events: seq<Event>)
    requires |events| > 0 && Samples(p, start, end, events[..|events| - 1]) && p.count < MAX_TEST_COUNT
    requires start != end && events[|events| - 1].addr == end
    ensures Samples(Checked(p, events[|events| - 1]), start, end, events)
  {
    hide Durations, Opens, Mean;
    var n := |events| - 1;
    var e, before := events[n], Durations(start, end, events[..n]);
    HoldsOn(p.sample, start, end, events);
    if p.sample.None? {
      Quiet(start, end, events);
    } else {
      var i: nat :| i < n && Opens(start, end, events[..n], i, n) && events[..n][i].cc == p.sample.cc;
      OpenPrefix(start, end, events, i, n);
      SampleOf(start, end, events, i);
      assert Capped(before) == before && before + [] == before;
      if events[i].cc <= e.cc { MeanStep(before, e.cc - events[i].cc); }
    }
  }

  lemma SamplesStep(p: Perf, start: word, end: word, events: seq<Event>)
    requires |events| > 0 && Samples(p, start, end, events[..|events| - 1])
    ensures Samples(Checked(p, events[|events| - 1]), start, end, events)
  {
    hide Durations, Mean, Holds;
    var e := events[|events| - 1];
    if p.count >= MAX_TEST_COUNT {
      Grows(start, end, events);
      CapReached(Durations(start, end, events[..|events| - 1]), Durations(start, end, events));
    } else if start != end && e.addr == end {
      EndHit(p, start, end, events);
    } else {
      Quiet(start, end, events);
      if start != end { HoldsOn(p.sample, start, end, events); }
    }
  }

  /** For every trace: the count is the number of completed samples, capped; the average is their exact mean. */
  lemma {:induction false} SamplerIsExact(p: Perf, events: seq<Event>)
    requires p.active && p.count == 0 && p.average == 0.0 && p.sample.None?
    ensures Samples(Run(p, events), p.start, p.end, events)
  {
    if |events| > 0 {
      SamplerIsExact(p, events[..|events| - 1]);
      SamplesStep(Run(p, events[..|events| - 1]), p.start, p.end, events);
    }
  }

  /** At the cap the record is frozen. */
  lemma {:induction false} FrozenAtCap(p: Perf, events: seq<Event>)
    requires p.count >= MAX_TEST_COUNT
    ensures Run(p, events) == p
  {
    if |events| > 0 { FrozenAtCap(p, events[..|events| - 1]); }
  }

  /** struct CodePerf: the record in place. */
  class Record {
    var name: string
    var addrStart: word
    var addrEnd: word
    var averageClockCycles: real
    var testCount: nat
    var sampleStartClock: Clock
    var active: bool

    ghost function View(): (p: Perf)
      reads this
    {
      Perf(name, addrStart, addrEnd, averageClockCycles, testCount, sampleStartClock, active)
    }

    constructor (name: string, addrStart: word, addrEnd: word, active: bool)
      ensures View() == Perf(name, addrStart, addrEnd, 0.0, 0, None, active)
    {
      this.name, this.addrStart, this.addrEnd, this.active := name, addrStart, addrEnd, active;
      averageClockCycles, testCount, sampleStartClock := 0.0, 0, None;
    }

    method CancelSample()
      modifies `sampleStartClock
      ensures sampleStartClock == None
    {
      sampleStartClock := None;
    }

    method ResetStatistics()
      modifies `averageClockCycles, `testCount, `sampleStartClock
      ensures averageClockCycles == 0.0 && testCount == 0 && sampleStartClock == None
    {
      averageClockCycles, testCount := 0.0, 0;
      CancelSample();
    }

    /** New end points start over; switching on or off only drops the open sample; a new name changes nothing else. */
    method Edit(newName: string, start: word, end: word, on: bool)
      modifies this
      ensures var p := old(View()).(name := newName, active := on);
              View() == if p.start != start || p.end != end then Perf(newName, start, end, 0.0, 0, None, on)
                        else if old(active) != on then p.(sample := None)
                        else p
    {
      var endpointsChanged := addrStart != start || addrEnd != end;
      name := newName;
      if endpointsChanged {
        addrStart, addrEnd := start, end;
        ResetStatistics();
      } else if active != on {
        CancelSample();
      }
      active := on;
    }

    method CheckPerf(addr: word, cc: nat)
      modifies this
      ensures View() == Checked(old(View()), Event(addr, cc))
    {
      if !active || testCount >= MAX_TEST_COUNT { return; }
      if addrStart == addr {
        sampleStartClock := At(cc);
        return;
      }
      if addrEnd == addr && sampleStartClock != None {
        if cc < sampleStartClock.cc {
          CancelSample();
          return;
        }
        testCount := testCount + 1;
        var duration := (cc - sampleStartClock.cc) as real;
        var weight := 1.0 / testCount as real;
        averageClockCycles := averageClockCycles + (duration - averageClockCycles) * weight;
        CancelSample();
      }
    }
  }
}
