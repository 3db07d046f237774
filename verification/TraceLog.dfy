/** class TraceLog of libs/v6core/src/trace_log.cpp: a ring with two end markers, filled downwards. */
module TraceLog {
  import opened Bytes
  import opened CpuDecode
  import opened TraceHistory
  import G = Glob

  const EMPTY_ITEM := -1
  const EMPTY := Item(EMPTY_ITEM, 0, 0)

  datatype Found = Found(generation: nat, callerPc: word, entrancePc: word, cursor: nat) | HistoryEnd(generation: nat) | Error(message: string)
  datatype Window = Window(start: nat, entries: seq<Item>) | WindowError(message: string)

  /** A continued search names the generation and the cursor of the record found last. */
  datatype Cursor = None | At(generation: nat, cursor: nat)

  const OPCODE_PCHL: byte := 0xE9

  /** PCHL has no operand: its record carries the address it jumped to. */
  function Executed(globalAddr: nat, opcode: byte, data: word, pc: word): (item: Item)
  {
    Item(globalAddr, opcode, if opcode == OPCODE_PCHL then pc else data)
  }

  function Pc(item: Item): (w: word) { item.globalAddr % 0x1_0000 }

  predicate Inside(start: nat, end: nat, pc: word) { start <= pc < end }

  predicate AllInside(items: seq<Item>, start: nat, end: nat, a: nat, b: nat)
  {
    forall i :: a <= i < b && i < |items| ==> Inside(start, end, Pc(items[i]))
  }

  /** The nearest record from `first` on that lies outside the range, entered from the record right after it. */
  predicate Answers(t: Trace, start: nat, end: nat, first: nat, livePc: word, r: Found)
  {
    match r
    case Found(generation, pc, entrance, cursor) =>
      && generation == t.generation && first <= cursor < |t.items|
      && pc == Pc(t.items[cursor]) && !Inside(start, end, pc)
      && AllInside(t.items, start, end, first, cursor)
      && entrance == if cursor == 0 then livePc else Pc(t.items[cursor - 1])
    case HistoryEnd(generation) => generation == t.generation && AllInside(t.items, start, end, first, |t.items|)
    case Error(_) => true
  }

  /** How CreateFilter reads an entry: its address and its instruction as text. */
  datatype Printer = Printer(address: word -> string, instruction: Item -> string)

  predicate Keeps(printer: Printer, addressPattern: string, instructionPattern: string, item: Item)
  {
    && (addressPattern == "" || G.Matches(addressPattern, printer.address(Pc(item))))
    && (instructionPattern == "" || G.Matches(instructionPattern, printer.instruction(item)))
  }

  function Kept(printer: Printer, addressPattern: string, instructionPattern: string, items: seq<Item>): (r: seq<Item>)
  {
    if |items| == 0 then []
    else
      var last := items[|items| - 1];
      Kept(printer, addressPattern, instructionPattern, items[..|items| - 1])
        + if Keeps(printer, addressPattern, instructionPattern, last) then [last] else []
  }

  lemma KeptNone(printer: Printer, addressPattern: string, instructionPattern: string, items: seq<Item>)
    ensures Kept(printer, addressPattern, instructionPattern, items[..0]) == []
  {
  }

  lemma KeptNext(printer: Printer, addressPattern: string, instructionPattern: string, items: seq<Item>, n: nat)
    requires n < |items|
    ensures var before, after := Kept(printer, addressPattern, instructionPattern, items[..n]),
                                 Kept(printer, addressPattern, instructionPattern, items[..n + 1]);
            after == if Keeps(printer, addressPattern, instructionPattern, items[n]) then before + [items[n]] else before
  {
    hide Keeps;
    assert items[..n + 1][..n] == items[..n];
    var before := Kept(printer, addressPattern, instructionPattern, items[..n]);
    assert before + [] == before;
  }

  /** The filter of a list is made of the filters of its parts, in order, and keeps a single record exactly when its
      address text and its instruction text are in the languages of the patterns given; an empty pattern asks nothing. */
  lemma {:induction false} KeptMeans(printer: Printer, address: string, instruction: string, older: seq<Item>, newer: seq<Item>, item: Item)
    ensures Kept(printer, address, instruction, newer + older)
              == Kept(printer, address, instruction, newer) + Kept(printer, address, instruction, older)
    ensures Kept(printer, address, instruction, [item])
              == if (address == "" || G.Matches(address, printer.address(Pc(item))))
                    && (instruction == "" || G.Matches(instruction, printer.instruction(item))) then [item] else []
    decreases older
  {
    assert [item][..0] == [];
    if |older| == 0 {
      assert newer + older == newer;
    } else {
      assert (newer + older)[..|newer + older| - 1] == newer + older[..|older| - 1];
      KeptMeans(printer, address, instruction, older[..|older| - 1], newer, item);
    }
  }

  // ---- The ring as values ----------------------------------------------------

  function Slot(idx: nat, i: nat): (s: nat) { if idx + i < SIZE then idx + i else idx + i - SIZE }

  /** Below capacity the records end at slot 0, which then holds the sentinel. */
  predicate Ring(log: seq<Item>, idx: nat, count: nat)
  {
    && |log| == SIZE && idx < SIZE && count <= SIZE
    && (count < SIZE ==> idx + count == SIZE || (idx == 0 && count == 0))
    && (count < SIZE ==> log[0].globalAddr == EMPTY_ITEM)
    && (forall i :: 0 <= i < count ==> log[Slot(idx, i)].globalAddr >= 0)
  }

  function Items(log: seq<Item>, idx: nat, count: nat): (items: seq<Item>)
    requires |log| == SIZE && idx < SIZE && count <= SIZE
    ensures |items| == count && forall i :: 0 <= i < count ==> items[i] == log[Slot(idx, i)]
  {
    seq(count, i requires 0 <= i < count => log[Slot(idx, i)])
  }

  lemma SlotMod(idx: nat, i: nat)
    requires idx < SIZE && i < SIZE
    ensures (idx + i) % SIZE == Slot(idx, i) < SIZE
  {
  }

  /** Seen from one slot lower, every record is one place older. */
  lemma SlotBelow(idx: nat, i: nat)
    requires idx < SIZE && 1 <= i < SIZE
    ensures Slot(Below(idx), i) == Slot(idx, i - 1) != Below(idx) && Slot(Below(idx), 0) == Below(idx)
  {
  }

  /** Writing one slot down drops the oldest record exactly when the ring is full. */
  lemma Pushed(log: seq<Item>, idx: nat, count: nat, item: Item, idx': nat, count': nat)
    requires Ring(log, idx, count) && item.globalAddr >= 0
    requires idx' == Below(idx) && count' == if count + 1 < SIZE then count + 1 else SIZE
    ensures Ring(log[idx' := item], idx', count')
    ensures Items(log[idx' := item], idx', count') == Newest([item] + Items(log, idx, count))
    ensures log[idx' := item][0] == if idx' == 0 then item else log[0]
  {
    var log' := log[idx' := item];
    var items := Items(log, idx, count);
    SlotBelow(idx, 1);
    forall i | 0 <= i < count'
      ensures log'[Slot(idx', i)] == if i == 0 then item else items[i - 1]
      ensures log'[Slot(idx', i)].globalAddr >= 0
    {
      if i > 0 {
        SlotBelow(idx, i);
        hide Slot;
        assert log[Slot(idx, i - 1)].globalAddr >= 0;
      }
    }
    hide Slot;
    PushedItems(Items(log', idx', count'), items, item);
  }

  lemma PushedItems(r: seq<Item>, items: seq<Item>, item: Item)
    requires |items| <= SIZE && |r| == if |items| + 1 < SIZE then |items| + 1 else SIZE
    requires forall i :: 0 <= i < |r| ==> r[i] == if i == 0 then item else items[i - 1]
    ensures r == Newest([item] + items)
  {
  }

  lemma RingBounds(log: seq<Item>, idx: nat, count: nat)
    requires Ring(log, idx, count)
    ensures |log| == SIZE && idx < SIZE && count <= SIZE
  {
  }

  lemma TopOfRing(log: seq<Item>, idx: nat, count: nat)
    requires Ring(log, idx, count)
    ensures log[idx].opcode == if count == 0 then log[0].opcode else Items(log, idx, count)[0].opcode
  {
  }

  /** The slot after the last record is the sentinel, and no record looks like one. */
  lemma SentinelDelimits(log: seq<Item>, idx: nat, count: nat, n: nat)
    requires Ring(log, idx, count) && n <= count && n < SIZE
    ensures log[(idx + n) % SIZE].globalAddr == EMPTY_ITEM <==> n == count
    ensures n < count ==> log[(idx + n) % SIZE] == Items(log, idx, count)[n]
  {
    SlotMod(idx, n);
  }

  class TraceLog {
    const log: array<Item>
    var logIdx: nat
    var historyCount: nat
    var historyGeneration: nat
    var filtered: seq<Item>
    var filterGeneration: nat
    var activeFilterId: nat
    const printer: Printer

    ghost var addressPattern: string
    ghost var instructionPattern: string

    /** An active filter is the result of its patterns on the history as it is now. */
    ghost predicate Valid()
      reads this, log
    {
      && Ring(log[..], logIdx, historyCount)
      && (activeFilterId != 0 ==>
            && activeFilterId == filterGeneration
            && filtered == Kept(printer, addressPattern, instructionPattern, Items(log[..], logIdx, historyCount)))
    }

    ghost function View(): (t: Trace)
      requires Valid()
      reads this, log
    {
      Trace(Items(log[..], logIdx, historyCount), logIdx, log[0].opcode, historyGeneration)
    }

    constructor (printer: Printer)
      ensures Valid() && View() == Trace([], 0, 0, 1) && fresh(log) && this.printer == printer
    {
      log := new Item[SIZE](_ => EMPTY);
      logIdx, historyCount, historyGeneration := 0, 0, 1;
      filtered, filterGeneration, activeFilterId := [], 0, 0;
      addressPattern, instructionPattern := "", "";
      this.printer := printer;
    }

    method InvalidateFilter()
      modifies `activeFilterId, `filtered, `filterGeneration
      ensures activeFilterId == 0 && filtered == [] && filterGeneration == old(filterGeneration) + 1
    {
      activeFilterId := 0;
      filtered := [];
      filterGeneration := filterGeneration + 1;
    }

    /** An executed instruction: the filter expires before the history changes. */
    method Update(globalAddr: nat, opcode: byte, data: word, pc: word)
      requires Valid()
      modifies log, this
      ensures Valid() && View() == Step(old(View()), Record(Executed(globalAddr, opcode, data, pc)))
      ensures activeFilterId == 0
      ensures !(opcode == 0x76 && old(View()).Top() == 0x76) ==>
                && View().generation == old(View()).generation + 1 && View().items != []
                && View().items[0] == Item(globalAddr, opcode, if opcode == 0xE9 then pc else data)
    {
      hide Ring, Kept;
      InvalidateFilter();
      UpdateLogBuffer(globalAddr, opcode, data, pc);
    }

    method UpdateLogBuffer(globalAddr: nat, opcode: byte, data: word, pc: word)
      requires Valid() && activeFilterId == 0
      modifies log, `logIdx, `historyCount, `historyGeneration
      ensures Valid() && View() == Step(old(View()), Record(Executed(globalAddr, opcode, data, pc)))
    {
      var item := Executed(globalAddr, opcode, data, pc);
      assert log[logIdx].opcode == View().Top() by { TopOfRing(log[..], logIdx, historyCount); }
      hide Ring, Newest;
      if item.opcode == HLT && log[logIdx].opcode == HLT {
        return;
      }
      ghost var was := log[..];
      ghost var idx, count := logIdx, historyCount;
      logIdx := (logIdx + SIZE - 1) % SIZE;
      historyCount := if historyCount + 1 < SIZE then historyCount + 1 else SIZE;
      historyGeneration := historyGeneration + 1;
      log[logIdx] := item;
      assert log[..] == was[logIdx := item];
      Pushed(was, idx, count, item, logIdx, historyCount);
    }

    method Reset()
      requires Valid()
      modifies log, this
      ensures Valid() && View() == Step(old(View()), TraceHistory.Reset)
      ensures activeFilterId == 0
    {
      historyCount := 0;
      historyGeneration := historyGeneration + 1;
      logIdx := 0;
      log[logIdx] := log[logIdx].(globalAddr := EMPTY_ITEM);
      InvalidateFilter();
    }

    /** The record `n` places after the newest, or the sentinel. */
    method ItemAt(n: nat) returns (end: bool, item: Item)
      requires Valid() && n <= historyCount && n < SIZE
      ensures end <==> n == historyCount
      ensures !end ==> item == View().items[n]
    {
      SentinelDelimits(log[..], logIdx, historyCount, n);
      hide Ring, Kept;
      item := log[(logIdx + n) % SIZE];
      end := item.globalAddr == EMPTY_ITEM;
    }

    /** The scan that stops at the sentinel passes exactly the records the count delimits. */
    method ScanLength() returns (n: nat)
      requires Valid()
      ensures n == historyCount
    {
      RingBounds(log[..], logIdx, historyCount);
      hide Ring, Kept;
      n := 0;
      while n < SIZE
        invariant 0 <= n <= SIZE && n <= historyCount
      {
        var end, _ := ItemAt(n);
        if end { break; }
        n := n + 1;
      }
    }

    method Selects(addressPattern: string, instructionPattern: string, item: Item) returns (keep: bool)
      ensures keep <==> Keeps(printer, addressPattern, instructionPattern, item)
    {
      hide G.Matches;
      keep := addressPattern == "";
      if !keep { keep := G.GlobMatches(addressPattern, printer.address(Pc(item))); }
      if keep && instructionPattern != "" { keep := G.GlobMatches(instructionPattern, printer.instruction(item)); }
    }

    /** The filter keeps, newest first, exactly the records whose texts are in the languages of the patterns. */
    method CreateFilter(address: string, instruction: string) returns (filterId: nat, total: nat)
      requires Valid()
      modifies `activeFilterId, `filtered, `filterGeneration, `addressPattern, `instructionPattern
      ensures Valid() && View() == old(View()) && addressPattern == address && instructionPattern == instruction
      ensures filtered == Kept(printer, address, instruction, View().items)
      ensures filterId == activeFilterId > old(filterGeneration) && total == |filtered|
    {
      InvalidateFilter();
      filtered := Collect(address, instruction);
      addressPattern, instructionPattern := address, instruction;
      filterGeneration := filterGeneration + 1;
      activeFilterId := filterGeneration;
      filterId, total := activeFilterId, |filtered|;
    }

    /** The loop of CreateFilter, from the newest record to the sentinel. */
    method Collect(address: string, instruction: string) returns (kept: seq<Item>)
      requires Valid()
      ensures kept == Kept(printer, address, instruction, View().items)
    {
      RingBounds(log[..], logIdx, historyCount);
      hide Ring, Keeps, Kept, G.Matches;
      kept := [];
      ghost var items := View().items;
      KeptNone(printer, address, instruction, items);
      var n := 0;
      while n < SIZE
        invariant 0 <= n <= SIZE && n <= |items|
        invariant kept == Kept(printer, address, instruction, items[..n])
      {
        var end, item := ItemAt(n);
        if end { break; }
        var keep := Selects(address, instruction, item);
        KeptNext(printer, address, instruction, items, n);
        if keep { kept := kept + [item]; }
        n := n + 1;
      }
      assert n == |items| && items[..n] == items;
    }

    /** A window is cut from the filtered present history: a filter never outlives the history it was made on. */
    method GetFilterWindow(filterId: nat, start: nat, lines: nat) returns (r: Window)
      requires Valid()
      ensures filterId != activeFilterId || activeFilterId == 0 || start > |filtered| <==> r.WindowError?
      ensures r.Window? ==> (
                && r.start == start && start <= |filtered| && r.entries <= filtered[start..]
                && filtered == Kept(printer, addressPattern, instructionPattern, View().items)
                && (|r.entries| == lines || (|r.entries| < lines && start + |r.entries| == |filtered|)))
    {
      if filterId != activeFilterId || activeFilterId == 0 { return WindowError("unknown or expired trace-log filterId"); }
      if start > |filtered| { return WindowError("trace-log window start is outside the filtered result"); }
      var end := if start + lines < |filtered| then start + lines else |filtered|;
      var entries := [];
      var index := start;
      while index < end
        invariant start <= index <= end && entries == filtered[start..index]
      {
        entries := entries + [filtered[index]];
        index := index + 1;
      }
      r := Window(start, entries);
    }

    /** The nearest older record outside [start, end); its entrance is the record right after it, or the live PC. */
    method FindCaller(start: nat, end: nat, from: Cursor, livePc: word) returns (r: Found)
      requires Valid()
      ensures r.Error? <==> start >= end || end > 0x1_0000
                            || (from.At? && (from.generation != historyGeneration || from.cursor >= historyCount))
      ensures var first := if from.At? then from.cursor + 1 else 0; Answers(View(), start, end, first, livePc, r)
    {
      RingBounds(log[..], logIdx, historyCount);
      hide Ring, Pc, Answers;
      if start >= end || end > 0x1_0000 { return Error("invalid history range"); }
      var cursor, destination := 0, livePc;
      if from.At? {
        if from.generation != historyGeneration { return Error("stale history generation"); }
        cursor := from.cursor;
        if cursor >= historyCount { return Error("invalid history cursor"); }
        SlotMod(logIdx, cursor);
        destination := Pc(log[(logIdx + cursor) % SIZE]);
        cursor := cursor + 1;
      }
      r := Search(start, end, cursor, destination, livePc);
    }

    method Search(start: nat, end: nat, first: nat, entrance: word, livePc: word) returns (r: Found)
      requires Valid() && first <= historyCount
      requires entrance == if first == 0 then livePc else Pc(View().items[first - 1])
      ensures !r.Error? && Answers(View(), start, end, first, livePc, r)
    {
      RingBounds(log[..], logIdx, historyCount);
      hide Ring, Pc;
      ghost var items := View().items;
      var cursor, destination := first, entrance;
      while cursor < historyCount
        invariant first <= cursor <= historyCount
        invariant destination == if cursor == 0 then livePc else Pc(items[cursor - 1])
        invariant AllInside(items, start, end, first, cursor)
      {
        SlotMod(logIdx, cursor);
        var pc := Pc(log[(logIdx + cursor) % SIZE]);
        if pc < start || pc >= end { return Found(historyGeneration, pc, destination, cursor); }
        destination := pc;
        cursor := cursor + 1;
      }
      r := HistoryEnd(historyGeneration);
    }

    /** The address after the caller's instruction, for a cursor of the current history. */
    method CallerSuccessor(generation: nat, cursor: nat) returns (ok: bool, address: word)
      requires Valid()
      ensures ok <==> generation == historyGeneration && cursor < historyCount
      ensures ok ==> var item := View().items[cursor]; address == (Pc(item) + InstrLen(item.opcode)) % 0x1_0000
    {
      ok, address := generation == historyGeneration && cursor < historyCount, 0;
      if ok {
        SlotMod(logIdx, cursor);
        var item := log[(logIdx + cursor) % SIZE];
        address := (item.globalAddr + InstrLen(item.opcode)) % 0x1_0000;
      }
    }
  }
}
