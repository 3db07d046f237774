/** Debugger memory edits: read-only bytes reverted after each instruction, ADD and RESTORE
    (libs/v6core/src/debugger.cpp). */
module MemoryEdits {
  import opened Bytes
  import opened Memory
  import opened CpuDecode
  import opened Cpu
  import T = CpuTheorem
  import opened L = WriteLog
  import R = Recorder
  import U = RecorderUnit

  datatype Edit = Edit(entered: byte, original: byte, comment: string, readonly: bool, active: bool)
  type Edits = map<nat, Edit>

  predicate Locked(edits: Edits, a: nat) { a in edits && edits[a].active && edits[a].readonly }

  // ---- After every instruction ---------------------------------------------

  /** A write to a locked byte is taken out of memory and logged as writing the old byte. */
  function RevertedEntry(edits: Edits, e: Entry): (r: Entry)
  {
    if Locked(edits, e.addr) then e.(value := e.before) else e
  }

  function RevertedByte(edits: Edits, ram: Ram, e: Entry): (r: Ram)
    requires InRange(e)
  {
    if Locked(edits, e.addr) then ram[e.addr := e.before] else ram
  }

  function RevertedLog(edits: Edits, log: WriteLog): (r: WriteLog)
  {
    if log.len == 0 then log
    else if log.len == 1 then log.(slot0 := RevertedEntry(edits, log.slot0))
    else log.(slot0 := RevertedEntry(edits, log.slot0), slot1 := RevertedEntry(edits, log.slot1))
  }

  function RevertedRam(edits: Edits, ram: Ram, log: WriteLog): (r: Ram)
    requires LogInRange(log)
  {
    if log.len == 0 then ram
    else if log.len == 1 then RevertedByte(edits, ram, log.slot0)
    else RevertedByte(edits, RevertedByte(edits, ram, log.slot0), log.slot1)
  }

  /** Locked bytes read as before the instruction, all others as after it, and the reverted log is again exact. */
  lemma RevertKeepsLocked(edits: Edits, before: Ram, after: Ram, log: WriteLog)
    requires Exact(before, after, log)
    ensures var ram := RevertedRam(edits, after, log);
            && Exact(before, ram, RevertedLog(edits, log))
            && forall a :: 0 <= a < GLOBAL_LEN ==> ram[a] == if Locked(edits, a) then before[a] else after[a]
  {
    var ram, log' := RevertedRam(edits, after, log), RevertedLog(edits, log);
    if log.len >= 1 {
      assert after[log.slot0.addr] == log.slot0.value;
      forall a | 0 <= a < GLOBAL_LEN && a != log.slot0.addr && (log.len == 1 || a != log.slot1.addr)
        ensures after[a] == before[a]
      {
      }
    }
    RevertRedo(edits, before, after, log);
  }

  lemma RevertInRange(edits: Edits, log: WriteLog)
    requires LogInRange(log)
    ensures LogInRange(RevertedLog(edits, log)) && RevertedLog(edits, log).len == log.len
  {
  }

  lemma RevertRedo(edits: Edits, before: Ram, after: Ram, log: WriteLog)
    requires Exact(before, after, log)
    ensures Redo(before, RevertedLog(edits, log)) == RevertedRam(edits, after, log)
    ensures Undo(RevertedRam(edits, after, log), RevertedLog(edits, log)) == before
  {
    hide Locked;
  }

  class Debugger<S> {
    var edits: Edits

    ghost predicate Valid()
      reads this
    {
      forall a :: a in edits ==> a < GLOBAL_LEN
    }

    constructor ()
      ensures edits == map[] && Valid()
    {
      edits := map[];
    }

    /** The write check of Debug, then the recorder, for any log. If the machine ran one instruction from the world
        `before` with an exact log, locked bytes stay and the tape stays on the history `h`. */
    method Debug(m: U.Machine<S>, rec: U.Recorder<S>, ghost before: R.World<S>, ghost h: seq<R.World<S>>)
      requires m.Valid() && rec.Valid() && m.ram as object != rec.states as object && m.log.len <= 2 && LogInRange(m.log)
      modifies m.ram, m`log, rec, rec.states
      ensures rec.Valid() && m.hw == old(m.hw) && m.log == RevertedLog(edits, old(m.log))
      ensures m.ram[..] == RevertedRam(edits, old(m.ram[..]), old(m.log))
      ensures rec.Tape() == R.Update(old(rec.Tape()), m.World(), m.log)
      ensures Exact(before.ram, old(m.ram[..]), old(m.log)) ==>
                forall a :: 0 <= a < GLOBAL_LEN ==> m.ram[a] == if Locked(edits, a) then before.ram[a] else old(m.ram[..])[a]
      ensures old(R.Consistent(R.Session(rec.Tape(), before), h)) && Exact(before.ram, old(m.ram[..]), old(m.log)) ==>
                R.Consistent(R.Session(rec.Tape(), m.World()), R.Extended(old(rec.Tape()), h, m.World()))
    {
      if Exact(before.ram, m.ram[..], m.log) { RevertKeepsLocked(edits, before.ram, m.ram[..], m.log); }
      RevertInRange(edits, m.log);
      hide Exact, RevertedLog, RevertedRam, R.Consistent, R.Extended, R.Update;
      Revert(m);
      rec.Update(m, before, h);
    }

    method Revert(m: U.Machine<S>)
      requires m.Valid() && LogInRange(m.log) && m.log.len <= 2
      modifies m.ram, m`log
      ensures m.ram[..] == RevertedRam(edits, old(m.ram[..]), old(m.log))
      ensures m.log == RevertedLog(edits, old(m.log))
    {
      var i := 0;
      ghost var ram, log := m.ram[..], m.log;
      while i < m.log.len
        invariant 0 <= i <= m.log.len == log.len
        invariant i == 0 ==> m.ram[..] == ram && m.log == log
        invariant i == 1 ==> m.ram[..] == RevertedByte(edits, ram, log.slot0) && m.log == log.(slot0 := RevertedEntry(edits, log.slot0))
        invariant i == 2 ==> m.ram[..] == RevertedRam(edits, ram, log) && m.log == RevertedLog(edits, log)
      {
        var e := if i == 0 then m.log.slot0 else m.log.slot1;
        if e.addr in edits && edits[e.addr].active && edits[e.addr].readonly {
          m.log := if i == 0 then m.log.(slot0 := e.(value := e.before)) else m.log.(slot1 := e.(value := e.before));
          m.ram[e.addr] := e.before;
        }
        i := i + 1;
      }
    }

    /** DEBUG_MEMORY_EDIT_ADD; false is the out-of-range exception of the memory access. */
    method Add(m: U.Machine<S>, addr: nat, entered: byte, comment: string, readonly: bool, active: bool) returns (ok: bool)
      requires m.Valid() && Valid()
      modifies this, m.ram
      ensures Valid() && ok == (addr < GLOBAL_LEN)
      ensures !ok ==> edits == old(edits) && m.ram[..] == old(m.ram[..])
      ensures ok ==> var s := Added(Bench(old(edits), old(m.ram[..])), addr, entered, comment, readonly, active);
                     edits == s.edits && m.ram[..] == s.ram
    {
      ok := addr < GLOBAL_LEN;
      if !ok { return; }
      var existing := addr in edits;
      var original := if existing then edits[addr].original else m.ram[addr];
      var apply := active && (!existing || !edits[addr].active || edits[addr].entered != entered);
      edits := edits[addr := Edit(entered, original, comment, readonly, active)];
      if apply { m.ram[addr] := entered; }
    }

    /** INTERNAL_REAPPLY_MEMORY_EDITS, in whatever order the table is walked. */
    method Reapply(m: U.Machine<S>)
      requires m.Valid() && Valid()
      modifies m.ram
      ensures m.ram[..] == Reapplied(edits, old(m.ram[..]))
    {
      var left := edits.Keys;
      while left != {}
        invariant left <= edits.Keys
        invariant forall a :: 0 <= a < GLOBAL_LEN ==>
                    m.ram[a] == if a in edits && a !in left && edits[a].active then edits[a].entered else old(m.ram[a])
      {
        var addr :| addr in left;
        if edits[addr].active { m.ram[addr] := edits[addr].entered; }
        left := left - {addr};
      }
    }

    /** DEBUG_MEMORY_EDIT_RESTORE; false is MemoryEditNotFound. */
    method Restore(m: U.Machine<S>, addr: nat) returns (found: bool, value: byte)
      requires m.Valid() && Valid()
      modifies this, m.ram
      ensures Valid() && found == (addr in old(edits))
      ensures var s := Restored(Bench(old(edits), old(m.ram[..])), addr); edits == s.edits && m.ram[..] == s.ram
      ensures found ==> value == old(edits[addr].original)
    {
      found, value := addr in edits, 0;
      if found {
        value := edits[addr].original;
        m.ram[addr] := value;
        edits := edits - {addr};
      }
    }
  }

  // ---- Whole sessions -----------------------------------------------------

  /** Every active edit pokes its value again. */
  function Reapplied(edits: Edits, ram: Ram): (r: Ram)
  {
    seq(GLOBAL_LEN, i requires 0 <= i < GLOBAL_LEN => if i in edits && edits[i].active then edits[i].entered else ram[i])
  }

  datatype Bench = Bench(edits: Edits, ram: Ram)

  predicate Sound(edits: Edits) { forall a :: a in edits ==> a < GLOBAL_LEN }

  /** The first ADD remembers the byte it finds; a later one keeps that and pokes only a changed or revived value. */
  function Added(s: Bench, addr: nat, entered: byte, comment: string, readonly: bool, active: bool): (s': Bench)
    requires addr < GLOBAL_LEN
  {
    var existing := addr in s.edits;
    var original := if existing then s.edits[addr].original else s.ram[addr];
    var apply := active && (existing ==> !s.edits[addr].active || s.edits[addr].entered != entered);
    Bench(s.edits[addr := Edit(entered, original, comment, readonly, active)], if apply then s.ram[addr := entered] else s.ram)
  }

  function Restored(s: Bench, addr: nat): (s': Bench)
    requires Sound(s.edits)
  {
    if addr in s.edits then Bench(s.edits - {addr}, s.ram[addr := s.edits[addr].original]) else s
  }

  /** After an ADD the byte shows the entered value if the edit is new, revived or changed, or if it showed it already,
      and in no other case: entering an active edit again does not write over what the program stored since. The edit
      keeps the byte seen first, no other byte or edit changes, and an inactive edit changes no byte. */
  lemma AddShowsIff(s: Bench, addr: nat, entered: byte, comment: string, readonly: bool, active: bool)
    requires addr < GLOBAL_LEN
    ensures var t := Added(s, addr, entered, comment, readonly, active);
            var stale := addr in s.edits && s.edits[addr].active && s.edits[addr].entered == entered;
            && (active ==> (t.ram[addr] == entered <==> !stale || s.ram[addr] == entered))
            && (!active || stale ==> t.ram == s.ram)
            && (forall a :: 0 <= a < GLOBAL_LEN && a != addr ==> t.ram[a] == s.ram[a])
            && addr in t.edits && t.edits[addr].entered == entered && t.edits[addr].active == active
            && t.edits[addr].readonly == readonly && t.edits[addr].comment == comment
            && t.edits[addr].original == (if addr in s.edits then s.edits[addr].original else s.ram[addr])
            && t.edits - {addr} == s.edits - {addr}
  {
  }

  /** After a reapply every active edit shows its value, and every other byte is as it was; a second one does nothing. */
  lemma ReapplyShows(edits: Edits, ram: Ram)
    ensures var r := Reapplied(edits, ram);
            && (forall a :: a in edits && a < GLOBAL_LEN && edits[a].active ==> r[a] == edits[a].entered)
            && (forall a :: 0 <= a < GLOBAL_LEN && (a !in edits || !edits[a].active) ==> r[a] == ram[a])
            && Reapplied(edits, r) == r
  {
  }

  datatype Request =
    | Add(addr: nat, entered: byte, comment: string, readonly: bool, active: bool)
    | Restore(addr: nat)
    | Delete(addr: nat)
    | DeleteAll
    | Reapply
    | Instruction(after: Ram, log: WriteLog)

  /** An instruction runs from the memory at hand with an exact log. */
  predicate Possible(s: Bench, q: Request)
  {
    q.Instruction? ==> Exact(s.ram, q.after, q.log)
  }

  function Step(s: Bench, q: Request): (s': Bench)
    requires Sound(s.edits) && Possible(s, q)
    ensures Sound(s'.edits)
  {
    match q
    case Add(addr, entered, comment, readonly, active) =>
      if addr < GLOBAL_LEN then Added(s, addr, entered, comment, readonly, active) else s
    case Restore(addr) => Restored(s, addr)
    case Delete(addr) => s.(edits := s.edits - {addr})
    case DeleteAll => s.(edits := map[])
    case Reapply => s.(ram := Reapplied(s.edits, s.ram))
    case Instruction(after, log) => s.(ram := RevertedRam(s.edits, after, log))
  }

  ghost predicate Session(t: nat -> Bench, q: nat -> Request)
  {
    && Sound(t(0).edits)
    && forall i: nat :: Sound(t(i).edits) ==> Possible(t(i), q(i)) && t(i + 1) == Step(t(i), q(i))
  }

  /** The request may take the edit of `a` away. */
  predicate Drops(q: Request, a: nat) { q.DeleteAll? || ((q.Restore? || q.Delete?) && q.addr == a) }

  predicate Names(q: Request, a: nat) { Drops(q, a) || (q.Add? && q.addr == a) }

  lemma {:induction false} AlwaysSound(t: nat -> Bench, q: nat -> Request, i: nat)
    requires Session(t, q)
    ensures Sound(t(i).edits)
  {
    if i > 0 { AlwaysSound(t, q, i - 1); }
  }

  /** A locked byte keeps its value over any run of instructions and of requests about other bytes; reapplying the edits
      keeps it too if it shows the value entered for it. */
  lemma {:induction false} LockedByteStays(t: nat -> Bench, q: nat -> Request, i: nat, j: nat, a: nat)
    requires Session(t, q) && i <= j && Locked(t(i).edits, a)
    requires forall k :: i <= k < j ==> !Names(q(k), a) && (q(k).Reapply? ==> a < GLOBAL_LEN && t(i).ram[a] == t(i).edits[a].entered)
    ensures a < GLOBAL_LEN && t(j).ram[a] == t(i).ram[a] && Locked(t(j).edits, a) && t(j).edits[a] == t(i).edits[a]
    decreases j
  {
    AlwaysSound(t, q, i);
    if i < j {
      LockedByteStays(t, q, i, j - 1, a);
      AlwaysSound(t, q, j - 1);
      var s, r := t(j - 1), q(j - 1);
      assert t(j) == Step(s, r);
      if r.Instruction? { RevertKeepsLocked(s.edits, s.ram, r.after, r.log); }
    }
  }

  /** RESTORE brings back the byte the first ADD found, whatever was executed and entered in between. */
  lemma {:induction false} RestoreUndoesFirstAdd(t: nat -> Bench, q: nat -> Request, i: nat, j: nat, a: nat)
    requires Session(t, q) && i < j && a < GLOBAL_LEN
    requires q(i).Add? && q(i).addr == a && a !in t(i).edits
    requires forall k :: i < k < j ==> !Drops(q(k), a)
    requires q(j) == Restore(a)
    ensures t(j + 1).ram[a] == t(i).ram[a] && a !in t(j + 1).edits
    ensures forall b :: 0 <= b < GLOBAL_LEN && b != a ==> t(j + 1).ram[b] == t(j).ram[b]
  {
    AlwaysSound(t, q, i);
    AlwaysSound(t, q, j);
    OriginalStays(t, q, i, j, a);
  }

  lemma {:induction false} OriginalStays(t: nat -> Bench, q: nat -> Request, i: nat, j: nat, a: nat)
    requires Session(t, q) && i < j && a < GLOBAL_LEN
    requires q(i).Add? && q(i).addr == a && a !in t(i).edits
    requires forall k :: i < k < j ==> !Drops(q(k), a)
    ensures a in t(j).edits && t(j).edits[a].original == t(i).ram[a]
    decreases j
  {
    AlwaysSound(t, q, j - 1);
    if j > i + 1 { OriginalStays(t, q, i, j - 1, a); }
  }

  /** XTHL logs only its second store: a locked byte under SP survives it if and only if it already equals L. */
  lemma XthlLockIff(edits: Edits, dev: Devices, m: Machine, irq: nat -> bool)
    requires m.cpu.ints.mc == 0 && !Accepts(m.cpu.ints, irq(0)) && Decode(T.Opcode(m)) == Xthl
    requires Locked(edits, Translate(m.mem, m.cpu.regs.sp, Stack))
    ensures var lo := Translate(m.mem, m.cpu.regs.sp, Stack);
            var t := Run(dev, m, irq, 6);
            && LogInRange(t.log)
            && (RevertedRam(edits, t.mem.ram, t.log)[lo] == m.mem.ram[lo] <==> m.mem.ram[lo] == m.cpu.regs.hl.l)
  {
    hide Decode, T.Opcode, Run, Translate;
    XthlRuns(dev, m, irq);
  }

  /** Concretely, such a byte is overwritten and its log cannot be undone to bring it back. */
  lemma XthlBreaksLock(edits: Edits, dev: Devices, m: Machine, irq: nat -> bool)
    requires m.cpu.ints.mc == 0 && !Accepts(m.cpu.ints, irq(0)) && Decode(T.Opcode(m)) == Xthl
    requires Locked(edits, Translate(m.mem, m.cpu.regs.sp, Stack))
    requires m.mem.ram[Translate(m.mem, m.cpu.regs.sp, Stack)] != m.cpu.regs.hl.l
    ensures var lo := Translate(m.mem, m.cpu.regs.sp, Stack);
            var t := Run(dev, m, irq, 6);
            && LogInRange(t.log)
            && RevertedRam(edits, t.mem.ram, t.log)[lo] == m.cpu.regs.hl.l
            && !Exact(m.mem.ram, RevertedRam(edits, t.mem.ram, t.log), RevertedLog(edits, t.log))
  {
    hide Decode, T.Opcode, Run, Translate;
    XthlRuns(dev, m, irq);
  }
}
