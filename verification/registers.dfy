/**
  The engine's memory-mapped register block as an in-memory map from
  offsets (relative to the engine's base address) to 32-bit words, and the
  trace of register interactions the driver performs on it.
 */
module Registers {
  import opened Words

  // Register offsets.
  const CtrlReg: nat := 0x00
  const FreeSlotsReg: nat := 0x04
  const SoftClearReg: nat := 0x14
  const InputAddrReg: nat := 0x20
  const WeightAddrReg: nat := 0x24
  const WeightNextAddrReg: nat := 0x28
  const BiasAddrReg: nat := 0x2C
  const OutputAddrReg: nat := 0x30
  const TilesReg: nat := 0x38
  const Eps1Reg: nat := 0x3C
  const Eps2Reg: nat := 0x40
  const Shift1Reg: nat := 0x44
  const Shift2Reg: nat := 0x48
  const Add1Reg: nat := 0x4C
  const Add2Reg: nat := 0x50
  const LayerReg: nat := 0x54
  const FlagsReg: nat := 0x58

  type RegFile = map<nat, Word>

  /**
    One interaction with the engine: a store to a register, a slot-count
    poll that saw `free` (at least one) free slots, or a busy poll that saw
    the engine idle.
   */
  datatype Event = Write(offset: nat, value: Word) | Acquired(free: Word) | Drained

  /**
    The engine as the driver sees it: the register block, the busy status
    word (which lives at a separate address) and every interaction so far.
   */
  datatype Device = Device(regs: RegFile, busy: Word, trace: seq<Event>)

  /** The register block after one event. */
  function Apply(regs: RegFile, e: Event): RegFile
  {
    match e
    case Write(o, v) => regs[o := v]
    case Acquired(v) => regs[FreeSlotsReg := v]
    case Drained => regs
  }

  /** The register block after a sequence of events, applied in order. */
  function Replay(regs: RegFile, es: seq<Event>): RegFile
  {
    if es == [] then regs
    else Apply(Replay(regs, es[..|es| - 1]), es[|es| - 1])
  }

  /** Replaying two segments one after the other is replaying their concatenation. */
  lemma {:induction false} ReplayAppend(regs: RegFile, a: seq<Event>, b: seq<Event>)
    ensures Replay(regs, a + b) == Replay(Replay(regs, a), b)
    decreases |b|
  {
    if b == [] {
      assert a + b == a;
    } else {
      assert (a + b)[..|a + b| - 1] == a + b[..|b| - 1];
      ReplayAppend(regs, a, b[..|b| - 1]);
    }
  }

  /** Appending events in two steps appends them in one. */
  lemma AppendEvents(a: seq<Event>, b: seq<Event>, c: seq<Event>)
    ensures a + b + c == a + (b + c)
  {
  }

  /** Replaying a single event is applying it. */
  lemma ReplayOne(regs: RegFile, e: Event)
    ensures Replay(regs, [e]) == Apply(regs, e)
  {
    assert [e][..0] == [];
  }

  /** Replaying one more event applies it to the replayed block. */
  lemma ReplaySnoc(regs: RegFile, es: seq<Event>, e: Event)
    ensures Replay(regs, es + [e]) == Apply(Replay(regs, es), e)
  {
    assert (es + [e])[..|es|] == es;
  }

  /** The device after the driver performs `es`: the block replays them and the trace records them. */
  function Issue(d: Device, es: seq<Event>): (r: Device)
    ensures r.busy == d.busy
    ensures |r.trace| == |d.trace| + |es|
    ensures r.trace[..|d.trace|] == d.trace && r.trace[|d.trace|..] == es
  {
    Device(Replay(d.regs, es), d.busy, d.trace + es)
  }

  /** Whether `e` is a store to the control register (a commit or a trigger). */
  predicate IsControlWrite(e: Event)
  {
    e.Write? && e.offset == CtrlReg
  }

  /** The register block as it stands right after each control-register store of `es`, in order. */
  function Snapshots(regs: RegFile, es: seq<Event>): seq<RegFile>
  {
    if es == [] then []
    else
      Snapshots(regs, es[..|es| - 1]) +
      (if IsControlWrite(es[|es| - 1]) then [Replay(regs, es)] else [])
  }

  /** Snapshots of a concatenation: those of the first part, then those of the second replayed on its result. */
  lemma {:induction false} SnapshotsAppend(regs: RegFile, a: seq<Event>, b: seq<Event>)
    ensures Snapshots(regs, a + b) == Snapshots(regs, a) + Snapshots(Replay(regs, a), b)
    decreases |b|
  {
    if b == [] {
      assert a + b == a;
    } else {
      var b' := b[..|b| - 1];
      assert (a + b)[..|a + b| - 1] == a + b';
      SnapshotsAppend(regs, a, b');
      ReplayAppend(regs, a, b);
    }
  }

  /** A segment without control-register stores contributes no snapshot. */
  lemma {:induction false} SnapshotsNoControl(regs: RegFile, es: seq<Event>)
    requires forall i :: 0 <= i < |es| ==> !IsControlWrite(es[i])
    ensures Snapshots(regs, es) == []
    decreases |es|
  {
    if es != [] {
      SnapshotsNoControl(regs, es[..|es| - 1]);
    }
  }
}
