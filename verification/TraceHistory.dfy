/** What the trace history means: the newest instructions since the last reset, newest first, with repeated HLTs
    dropped, and a generation number that names each history (libs/v6core/src/trace_log.cpp). */
module TraceHistory {
  import opened Bytes

  const SIZE := 300000
  const HLT: byte := 0x76

  datatype Item = Item(globalAddr: int, opcode: byte, data: word)

  /** The ring is filled downwards from slot 0, where `idx` starts; `slot0` is the opcode that slot holds, which a
      reset leaves there. */
  datatype Trace = Trace(items: seq<Item>, idx: nat, slot0: byte, generation: nat)
  {
    function Top(): (op: byte) { if items == [] then slot0 else items[0].opcode }
  }

  datatype Op = Record(item: Item) | Reset

  predicate Skipped(top: byte, item: Item) { item.opcode == HLT && top == HLT }

  function Newest(items: seq<Item>): (r: seq<Item>) { if |items| <= SIZE then items else items[..SIZE] }

  function Below(idx: nat): (r: nat) { if idx == 0 then SIZE - 1 else idx - 1 }

  function Step(t: Trace, op: Op): (t': Trace)
  {
    match op
    case Record(item) =>
      if Skipped(t.Top(), item) then t
      else
        var idx := Below(t.idx);
        Trace(Newest([item] + t.items), idx, if idx == 0 then item.opcode else t.slot0, t.generation + 1)
    case Reset => Trace([], 0, t.slot0, t.generation + 1)
  }

  function Run(t: Trace, ops: seq<Op>): (t': Trace)
  {
    if |ops| == 0 then t else Step(Run(t, ops[..|ops| - 1]), ops[|ops| - 1])
  }

  /** Everything recorded from an empty ring that holds `slot0`, newest first. */
  function Accepted(slot0: byte, items: seq<Item>): (r: seq<Item>)
  {
    if |items| == 0 then []
    else
      var r := Accepted(slot0, items[..|items| - 1]);
      var item := items[|items| - 1];
      if Skipped(if r == [] then slot0 else r[0].opcode, item) then r else [item] + r
  }

  function Records(items: seq<Item>): (ops: seq<Op>) { seq(|items|, i requires 0 <= i < |items| => Record(items[i])) }

  /** Where the n-th record lands, and the opcode of the last record that landed in slot 0: number SIZE * (n / SIZE). */
  function SlotOf(n: nat): (i: nat) { if n % SIZE == 0 then 0 else SIZE - n % SIZE }

  function InSlot0(slot0: byte, accepted: seq<Item>): (op: byte)
  {
    if |accepted| < SIZE then slot0 else accepted[|accepted| % SIZE].opcode
  }

  lemma SlotSteps(n: nat)
    ensures Below(SlotOf(n)) == SlotOf(n + 1)
    ensures (n + 1) % SIZE == if n % SIZE + 1 == SIZE then 0 else n % SIZE + 1
  {
  }

  /** `r` is an empty ring `t` after the records `a`, newest first. */
  predicate Shows(t: Trace, r: Trace, a: seq<Item>)
  {
    && r.items == Newest(a) && r.idx == SlotOf(|a|) && r.slot0 == InSlot0(t.slot0, a)
    && r.generation == t.generation + |a|
  }

  lemma ShowsOn(t: Trace, r: Trace, a: seq<Item>, item: Item)
    requires Shows(t, r, a)
    ensures var top := if a == [] then t.slot0 else a[0].opcode;
            Shows(t, Step(r, Record(item)), if Skipped(top, item) then a else [item] + a)
  {
    assert r.Top() == if a == [] then t.slot0 else a[0].opcode;
    var top := r.Top();
    if !Skipped(top, item) {
      assert Newest([item] + Newest(a)) == Newest([item] + a);
      SlotSteps(|a|);
      SlotZero(|a| + 1);
      AcceptedSlot0(t.slot0, a, item);
      hide SlotOf, InSlot0, Below, Newest;
    }
  }

  /** From an empty ring: the history is the newest min(n, SIZE) of the n accepted instructions, and slot 0 holds its
      old opcode until record number SIZE, then that of the latest record whose number is a multiple of SIZE. */
  lemma {:induction false} HistoryIsNewest(t: Trace, items: seq<Item>)
    requires t.items == [] && t.idx == 0
    ensures Shows(t, Run(t, Records(items)), Accepted(t.slot0, items))
    ensures var a := Accepted(t.slot0, items); Run(t, Records(items)).items == if |a| <= 300000 then a else a[..300000]
  {
    if |items| > 0 {
      var init := items[..|items| - 1];
      HistoryIsNewest(t, init);
      assert Records(items)[..|items| - 1] == Records(init);
      hide Shows, Step;
      ShowsOn(t, Run(t, Records(init)), Accepted(t.slot0, init), items[|items| - 1]);
    }
  }

  lemma SlotZero(n: nat)
    ensures SlotOf(n) == 0 <==> n % SIZE == 0
  {
  }

  lemma AcceptedSlot0(slot0: byte, a: seq<Item>, item: Item)
    ensures InSlot0(slot0, [item] + a) == if (|a| + 1) % SIZE == 0 then item.opcode else InSlot0(slot0, a)
  {
    SlotSteps(|a|);
    var b := [item] + a;
    if (|a| + 1) % SIZE != 0 && |a| >= SIZE {
      assert b[|b| % SIZE] == a[|a| % SIZE];
    }
  }

  /** Over runs: after any instructions and a reset, the next HLT is recorded if and only if slot 0 does not hold an
      HLT, that is, unless the last record numbered by a multiple of SIZE was one (or none was and the old opcode is). */
  lemma FirstHltIff(t: Trace, items: seq<Item>, item: Item)
    requires t.items == [] && t.idx == 0 && item.opcode == HLT
    ensures var r := Run(t, Records(items) + [Reset, Record(item)]);
            (r.items == [item] <==> InSlot0(t.slot0, Accepted(t.slot0, items)) != HLT)
            && (r.items == [] <==> InSlot0(t.slot0, Accepted(t.slot0, items)) == HLT)
  {
    hide InSlot0, Accepted, SlotOf;
    var ops := Records(items);
    HistoryIsNewest(t, items);
    RunSplit(t, ops, [Reset, Record(item)]);
    var tail := [Reset, Record(item)];
    assert tail[..1] == [Reset] && tail[..1][..0] == [];
    var r := Run(t, ops);
    assert Run(r, tail[..1]) == Step(Run(r, tail[..1][..0]), Reset);
  }

  const NOP_ITEM := Item(0, 0, 0)
  const HLT_ITEM := Item(1, HLT, 0)

  /** NOPs up to the last slot, then an HLT: the instructions that fill the ring once. */
  function FillWithHlt(): (items: seq<Item>) { seq(SIZE, i => if i == SIZE - 1 then HLT_ITEM else NOP_ITEM) }

  lemma {:induction false} NopsAccepted(n: nat)
    requires n < SIZE
    ensures |Accepted(0, FillWithHlt()[..n])| == n && (n > 0 ==> Accepted(0, FillWithHlt()[..n])[0] == NOP_ITEM)
  {
    if n > 0 {
      NopsAccepted(n - 1);
      assert FillWithHlt()[..n][..n - 1] == FillWithHlt()[..n - 1];
      assert FillWithHlt()[..n][n - 1] == NOP_ITEM;
    }
  }

  /** From construction: 299999 NOPs, an HLT, a reset, and the HLT that follows goes unrecorded. */
  lemma FirstHltLost(t: Trace)
    requires t.items == [] && t.idx == 0 && t.slot0 == 0
    ensures Run(t, Records(FillWithHlt()) + [Reset, Record(HLT_ITEM)]).items == []
  {
    var items := FillWithHlt();
    NopsAccepted(SIZE - 1);
    assert items[..|items| - 1] == items[..SIZE - 1] && items[SIZE - 1] == HLT_ITEM;
    hide FillWithHlt;
    var a := Accepted(0, items);
    assert a == [HLT_ITEM] + Accepted(0, items[..SIZE - 1]);
    assert |a| == SIZE && a[|a| % SIZE] == HLT_ITEM;
    FirstHltIff(t, items, HLT_ITEM);
  }

  lemma {:induction false} GenerationGrows(t: Trace, ops: seq<Op>)
    ensures Run(t, ops).generation >= t.generation
    ensures Run(t, ops).generation == t.generation ==> Run(t, ops) == t
  {
    if |ops| > 0 { GenerationGrows(t, ops[..|ops| - 1]); }
  }

  /** Equal generations name equal histories: a cursor that passes the generation test is never stale. */
  lemma GenerationNamesHistory(t: Trace, ops: seq<Op>, i: nat, j: nat)
    requires i <= j <= |ops|
    requires Run(t, ops[..i]).generation == Run(t, ops[..j]).generation
    ensures Run(t, ops[..i]) == Run(t, ops[..j])
  {
    var rest := ops[i..j];
    RunSplit(t, ops[..i], rest);
    assert ops[..i] + rest == ops[..j];
    GenerationGrows(Run(t, ops[..i]), rest);
  }

  lemma {:induction false} RunSplit(t: Trace, a: seq<Op>, b: seq<Op>)
    ensures Run(t, a + b) == Run(Run(t, a), b)
  {
    if |b| == 0 {
      assert a + b == a;
    } else {
      assert (a + b)[..|a + b| - 1] == a + b[..|b| - 1];
      RunSplit(t, a, b[..|b| - 1]);
    }
  }
}
