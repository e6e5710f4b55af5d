/**
  The cluster-side test routine `testReturn`: it checks its argument, then
  drives the engine through three job contexts (clear, acquire, program,
  commit, program, trigger, acquire, program, trigger, wait) and returns
  the platform's test value.
 */
module ClusterTest {
  import opened Words
  import opened Packing
  import opened Registers
  import opened Driver
  import opened RequantTables
  import opened JobRun

  /** The argument value the host passes; anything else is rejected. */
  const ArgsMagic: Word := 0xdeadbeef

  /** The value returned for a rejected argument. */
  const RejectCode: Int32 := -1

  // ---------------------------------------------------------------------
  // The routine, over any three contexts
  // ---------------------------------------------------------------------

  /** The driver calls of `testReturn`, programming contexts `c0`, `c1`, `c2`. */
  function ContextSteps(c0: Context, c1: Context, c2: Context): seq<Step>
  {
    [Clear, AwaitSlot, Configure(c0), CommitJob, Configure(c1), TriggerJob,
     AwaitSlot, Configure(c2), TriggerJob, AwaitIdle]
  }

  /**
    The full interaction of a complete run whose slot polls saw `free1`
    and `free2`, written out stage by stage.
   */
  function Expected(p: Platform, c0: Context, c1: Context, c2: Context, free1: Word, free2: Word): seq<Event>
  {
    [Write(SoftClearReg, 0)] + [Acquired(free1)]
    + (ProgramWrites(p, c0) + [Write(CtrlReg, CommitValue)])
    + (ProgramWrites(p, c1) + [Write(CtrlReg, TriggerValue)])
    + [Acquired(free2)]
    + (ProgramWrites(p, c2) + [Write(CtrlReg, TriggerValue)])
    + [Drained]
  }

  /**
    The trace of the routine is the traces of its six stages, one after the
    other: clear and acquire, program and commit, program and trigger,
    acquire, program and trigger, wait.
   */
  lemma ContextTraceStages(p: Platform, c0: Context, c1: Context, c2: Context, seen: seq<Word>)
    requires |seen| == 10
    ensures Trace(p, ContextSteps(c0, c1, c2), seen)
              == Trace(p, [Clear, AwaitSlot], seen[0..2]) + Trace(p, [Configure(c0), CommitJob], seen[2..4])
                 + Trace(p, [Configure(c1), TriggerJob], seen[4..6]) + Trace(p, [AwaitSlot], seen[6..7])
                 + Trace(p, [Configure(c2), TriggerJob], seen[7..9]) + Trace(p, [AwaitIdle], seen[9..10])
  {
    var A, B, C := [Clear, AwaitSlot], [Configure(c0), CommitJob], [Configure(c1), TriggerJob];
    var D, E, F := [AwaitSlot], [Configure(c2), TriggerJob], [AwaitIdle];
    var a, b, c := seen[0..2], seen[2..4], seen[4..6];
    var d, e, f := seen[6..7], seen[7..9], seen[9..10];
    assert ContextSteps(c0, c1, c2) == A + B + C + D + E + F;
    assert seen == a + b + c + d + e + f;
    TraceAppend(p, A + B + C + D + E, F, a + b + c + d + e, f);
    TraceAppend(p, A + B + C + D, E, a + b + c + d, e);
    TraceAppend(p, A + B + C, D, a + b + c, d);
    TraceAppend(p, A + B, C, a + b, c);
    TraceAppend(p, A, B, a, b);
  }

  /** All ten steps completed: the trace is `Expected`, with the two slot polls' values. */
  lemma CompleteTrace(p: Platform, c0: Context, c1: Context, c2: Context, seen: seq<Word>)
    requires |seen| == 10
    ensures Trace(p, ContextSteps(c0, c1, c2), seen) == Expected(p, c0, c1, c2, seen[1], seen[6])
  {
    ContextTraceStages(p, c0, c1, c2, seen);
    assert Trace(p, [Clear, AwaitSlot], seen[0..2]) == [Write(SoftClearReg, 0)] + [Acquired(seen[1])] by {
      assert seen[0..2] == [seen[0], seen[1]];
      TraceTwo(p, Clear, AwaitSlot, seen[0], seen[1]);
    }
    assert Trace(p, [Configure(c0), CommitJob], seen[2..4])
        == ProgramWrites(p, c0) + [Write(CtrlReg, CommitValue)] by {
      assert seen[2..4] == [seen[2], seen[3]];
      TraceTwo(p, Configure(c0), CommitJob, seen[2], seen[3]);
    }
    assert Trace(p, [Configure(c1), TriggerJob], seen[4..6])
        == ProgramWrites(p, c1) + [Write(CtrlReg, TriggerValue)] by {
      assert seen[4..6] == [seen[4], seen[5]];
      TraceTwo(p, Configure(c1), TriggerJob, seen[4], seen[5]);
    }
    assert Trace(p, [AwaitSlot], seen[6..7]) == [Acquired(seen[6])] by {
      assert seen[6..7] == [seen[6]];
      TraceOne(p, AwaitSlot, seen[6]);
    }
    assert Trace(p, [Configure(c2), TriggerJob], seen[7..9])
        == ProgramWrites(p, c2) + [Write(CtrlReg, TriggerValue)] by {
      assert seen[7..9] == [seen[7], seen[8]];
      TraceTwo(p, Configure(c2), TriggerJob, seen[7], seen[8]);
    }
    assert Trace(p, [AwaitIdle], seen[9..10]) == [Drained] by {
      assert seen[9..10] == [seen[9]];
      TraceOne(p, AwaitIdle, seen[9]);
    }
  }

  /**
    The snapshots of the whole protocol are those of its three programming
    stages: the slot polls, the busy poll and the soft clear take none.
   */
  lemma ExpectedStages(p: Platform, regs: RegFile, c0: Context, c1: Context, c2: Context,
                       free1: Word, free2: Word)
    ensures var a := [Write(SoftClearReg, 0)] + [Acquired(free1)];
            var b0 := ProgramWrites(p, c0) + [Write(CtrlReg, CommitValue)];
            var b1 := ProgramWrites(p, c1) + [Write(CtrlReg, TriggerValue)];
            var m := [Acquired(free2)];
            var b2 := ProgramWrites(p, c2) + [Write(CtrlReg, TriggerValue)];
            Snapshots(regs, Expected(p, c0, c1, c2, free1, free2))
              == Snapshots(Replay(regs, a), b0) + Snapshots(Replay(regs, a + b0), b1)
                 + Snapshots(Replay(regs, a + b0 + b1 + m), b2)
  {
    var a := [Write(SoftClearReg, 0)] + [Acquired(free1)];
    var b0 := ProgramWrites(p, c0) + [Write(CtrlReg, CommitValue)];
    var b1 := ProgramWrites(p, c1) + [Write(CtrlReg, TriggerValue)];
    var m := [Acquired(free2)];
    var b2 := ProgramWrites(p, c2) + [Write(CtrlReg, TriggerValue)];
    var z := [Drained];
    SnapshotsAppend(regs, a + b0 + b1 + m + b2, z);
    SnapshotsAppend(regs, a + b0 + b1 + m, b2);
    SnapshotsAppend(regs, a + b0 + b1, m);
    SnapshotsAppend(regs, a + b0, b1);
    SnapshotsAppend(regs, a, b0);
    SnapshotsNoControl(regs, a);
    SnapshotsNoControl(Replay(regs, a + b0 + b1 + m + b2), z);
    SnapshotsNoControl(Replay(regs, a + b0 + b1), m);
  }

  /**
    At the commit and at the two triggers of a complete run, the register
    block holds every register of, in turn, c0, c1 and c2, whatever it held
    before the run: each context fully replaces the previous one.
   */
  lemma ExpectedSnapshots(p: Platform, regs: RegFile, c0: Context, c1: Context, c2: Context,
                          free1: Word, free2: Word)
    ensures var s := Snapshots(regs, Expected(p, c0, c1, c2, free1, free2));
            && |s| == 3
            && Holds(s[0], RqsImage(c0.rq)) && Holds(s[0], JobImage(p, c0.job))
            && Holds(s[1], RqsImage(c1.rq)) && Holds(s[1], JobImage(p, c1.job))
            && Holds(s[2], RqsImage(c2.rq)) && Holds(s[2], JobImage(p, c2.job))
  {
    var a := [Write(SoftClearReg, 0)] + [Acquired(free1)];
    var b0 := ProgramWrites(p, c0) + [Write(CtrlReg, CommitValue)];
    var b1 := ProgramWrites(p, c1) + [Write(CtrlReg, TriggerValue)];
    var m := [Acquired(free2)];
    var b2 := ProgramWrites(p, c2) + [Write(CtrlReg, TriggerValue)];
    var r1, r2, r4 := Replay(regs, a), Replay(regs, a + b0), Replay(regs, a + b0 + b1 + m);
    ExpectedStages(p, regs, c0, c1, c2, free1, free2);
    ProgramSnapshot(p, r1, c0, CommitValue);
    ProgramSnapshot(p, r2, c1, TriggerValue);
    ProgramSnapshot(p, r4, c2, TriggerValue);
  }

  // ---------------------------------------------------------------------
  // The test's own contexts
  // ---------------------------------------------------------------------

  /** `a + k` in 32-bit unsigned arithmetic. */
  function AddWrap(a: Word, k: nat): (r: Word)
    requires k < Modulus
    ensures r == (a + k) % Modulus
  {
    if a + k < Modulus then a + k else a + k - Modulus
  }

  /** Two wrapping additions in a row are one wrapping addition of the sum. */
  lemma AddWrapTwice(a: Word, j: nat, k: nat)
    requires j + k < Modulus
    ensures AddWrap(AddWrap(a, j), k) == AddWrap(a, j + k)
  {
  }

  /** How far the addresses of context `k` are shifted from those of context 0. */
  function ContextShift(k: nat): nat
  {
    k * 0x100
  }

  /** The job the test programs as its context `k` (counting from 0). */
  function ContextJob(p: Platform, k: nat): (c: JobConfig)
    requires k < 3
    ensures c.tiles == 0x111
    ensures c.layer == 0
    ensures c.flags == [3, 2, 0][k]
  {
    var shift := ContextShift(k);
    var flags :=
      if k == 0 then FlagsWord(1, 1, 0, 0, 0)
      else if k == 1 then FlagsWord(0, 1, 0, 0, 0)
      else FlagsWord(0, 0, 0, 0, 0);
    JobConfig(AddWrap(p.tcdmStart, shift),
              AddWrap(AddWrap(p.tcdmStart, 0x1000), shift),
              AddWrap(AddWrap(p.tcdmStart, 0x2000), shift),
              AddWrap(AddWrap(p.tcdmStart, 0x3000), shift),
              AddWrap(AddWrap(p.tcdmStart, 0x4000), shift),
              PackTiles(1, 1, 1) as int,
              PackLayer(Attention, Identity) as int,
              flags as int)
  }

  /** The control words of the test decode to one tile of each kind, attention with identity, and the flag sets of the three contexts. */
  lemma ContextControlWords()
    ensures UnpackTiles(0x111) == TileShape(1, 1, 1)
    ensures UnpackLayer(0) == Some((Attention, Identity))
    ensures UnpackFlags(3) == Some(Flags(true, true, false, false, false))
    ensures UnpackFlags(2) == Some(Flags(false, true, false, false, false))
    ensures UnpackFlags(0) == Some(Flags(false, false, false, false, false))
  {
  }

  /** The requantization parameters of context `k`: row `k` of each table. */
  function ContextRequant(k: nat): (rq: RequantParams)
    requires k < 3
    ensures rq.eps1 == LittleEndian(EpsMultBytes[k][..4]) && rq.eps2 == LittleEndian(EpsMultBytes[k][4..])
    ensures rq.shift1 == LittleEndian(RightShiftBytes[k][..4]) && rq.shift2 == LittleEndian(RightShiftBytes[k][4..])
    ensures rq.add1 == LittleEndian(AddBytes[k][..4]) && rq.add2 == LittleEndian(AddBytes[k][4..])
  {
    TablesMatchComments();
    RequantParams(RequantEpsMult[k][0], RequantEpsMult[k][1],
                  RequantRightShift[k][0], RequantRightShift[k][1],
                  RequantAdd[k][0], RequantAdd[k][1])
  }

  /** Context `k` of the test. */
  function TestContext(p: Platform, k: nat): Context
    requires k < 3
  {
    Context(ContextRequant(k), ContextJob(p, k))
  }

  /** The translated form of address `tcdmStart + offset`. */
  function AddressReg(p: Platform, offset: nat): Word
    requires offset < Modulus
  {
    Translate(AddWrap(p.tcdmStart, offset), p.clusterBase)
  }

  /** Translating a shifted address shifts the translated address by as much. */
  lemma TranslateShift(a: Word, base: Word, k: nat)
    requires k < Modulus
    ensures Translate(AddWrap(a, k), base) == AddWrap(Translate(a, base), k)
  {
  }

  /**
    Moving a buffer by `k` moves the register value programmed for it by
    `k`: with `ContextAddressRegs`, the five address registers of a context
    are 0x1000 apart and each moves by 0x100 from one context to the next.
   */
  lemma AddressRegShift(p: Platform, offset: nat, k: nat)
    requires offset + k < Modulus
    ensures AddressReg(p, offset + k) == AddWrap(AddressReg(p, offset), k)
  {
    AddWrapTwice(p.tcdmStart, offset, k);
    TranslateShift(AddWrap(p.tcdmStart, offset), p.clusterBase, k);
  }

  /** The five address registers context `k` programs: `tcdmStart + k * 0x100 + {0, 0x1000, 0x2000, 0x3000, 0x4000}`, translated. */
  lemma ContextAddressRegs(p: Platform, k: nat)
    requires k < 3
    ensures var m, s := JobImage(p, ContextJob(p, k)), ContextShift(k);
            && m[InputAddrReg] == AddressReg(p, s)
            && m[WeightAddrReg] == AddressReg(p, 0x1000 + s)
            && m[WeightNextAddrReg] == AddressReg(p, 0x2000 + s)
            && m[BiasAddrReg] == AddressReg(p, 0x3000 + s)
            && m[OutputAddrReg] == AddressReg(p, 0x4000 + s)
  {
    var s := ContextShift(k);
    AddWrapTwice(p.tcdmStart, 0x1000, s);
    AddWrapTwice(p.tcdmStart, 0x2000, s);
    AddWrapTwice(p.tcdmStart, 0x3000, s);
    AddWrapTwice(p.tcdmStart, 0x4000, s);
  }

  // ---------------------------------------------------------------------
  // The test routine
  // ---------------------------------------------------------------------

  /** The driver calls of `testReturn`. */
  function TestSteps(p: Platform): seq<Step>
  {
    ContextSteps(TestContext(p, 0), TestContext(p, 1), TestContext(p, 2))
  }

  /**
    How `testReturn` ends: `Returned` with its return value, or `Hung` in a
    poll that the offered status reads never let exit.
   */
  datatype Outcome = Returned(code: Int32, dev: Device) | Hung(dev: Device)

  /** `testReturn`. */
  function TestReturn(p: Platform, argsValue: Word, d: Device, env: Env): (o: Outcome)
    ensures argsValue != ArgsMagic ==> o == Returned(RejectCode, d)
    ensures argsValue == ArgsMagic && o.Returned? ==> o.code == p.testVal && o.dev.busy == 0
  {
    if argsValue != ArgsMagic then Returned(RejectCode, d)
    else
      RunEndsIdle(p, d, env, TestSteps(p));
      match Run(p, d, env, TestSteps(p))
      case Completed(d', _) => Returned(p.testVal, d')
      case Stalled(d', _) => Hung(d')
  }

  /**
    An accepted call of `testReturn` first clears the engine, then performs
    the driver calls of the routine in order, each slot poll exiting on at
    least one free slot; it returns exactly when all ten calls completed.
   */
  lemma TestReturnFollowsSteps(p: Platform, d: Device, env: Env)
    ensures var o := TestReturn(p, ArgsMagic, d, env);
            exists seen ::
              && 1 <= |seen| <= 10
              && Accepts(TestSteps(p), seen)
              && o.dev.trace == d.trace + Trace(p, TestSteps(p), seen)
              && o.dev.trace[|d.trace|] == Write(SoftClearReg, 0)
              && o.dev.regs == Replay(d.regs, Trace(p, TestSteps(p), seen))
              && (o.Returned? <==> |seen| == 10)
  {
    var r := Run(p, d, env, TestSteps(p));
    RunAccepts(p, d, env, TestSteps(p));
    RunStarts(p, d, env, TestSteps(p));
    var t := Trace(p, TestSteps(p), r.seen);
    assert t == StepEvents(p, Clear, r.seen[0]) + Trace(p, TestSteps(p)[1..], r.seen[1..]);
    assert (d.trace + t)[|d.trace|] == t[0];
  }

  /**
    An accepted call of `testReturn` returns exactly when the engine offers
    two slot reads of at least 1 and one busy read of 0; otherwise it
    spins for ever in one of its polls.
   */
  lemma TestReturnReturns(p: Platform, d: Device, env: Env)
    ensures TestReturn(p, ArgsMagic, d, env).Returned? <==>
              Exits(env.freeSlotReads, false) >= 2 && Exits(env.busyReads, true) >= 1
  {
    ContextRunCompletes(p, d, env, TestContext(p, 0), TestContext(p, 1), TestContext(p, 2));
  }

  /**
    When testReturn's ten calls all complete, the trace is the whole
    protocol, ending with the engine seen idle, and at its commit and two
    triggers the register block holds every register of contexts 0, 1 and
    2 in turn.
   */
  lemma TestReturnSnapshots(p: Platform, d: Device, env: Env)
    ensures var o := TestReturn(p, ArgsMagic, d, env);
            var done := o.dev.trace[|d.trace|..];
            var s := Snapshots(d.regs, done);
            o.Returned? ==>
              && done[|done| - 1] == Drained
              && |s| == 3
              && Holds(s[0], RqsImage(TestContext(p, 0).rq)) && Holds(s[0], JobImage(p, TestContext(p, 0).job))
              && Holds(s[1], RqsImage(TestContext(p, 1).rq)) && Holds(s[1], JobImage(p, TestContext(p, 1).job))
              && Holds(s[2], RqsImage(TestContext(p, 2).rq)) && Holds(s[2], JobImage(p, TestContext(p, 2).job))
  {
    var c0, c1, c2 := TestContext(p, 0), TestContext(p, 1), TestContext(p, 2);
    TestReturnRuns(p, d, env);
    RunSnapshots(p, d, env, c0, c1, c2);
  }

  /** An accepted call of `testReturn` is a run of its ten calls: it returns when the run completes, with the run's device. */
  lemma TestReturnRuns(p: Platform, d: Device, env: Env)
    ensures var o := TestReturn(p, ArgsMagic, d, env);
            var r := Run(p, d, env, TestSteps(p));
            && (o.Returned? <==> r.Completed?)
            && o.dev == r.dev
  {
  }

  /** An engine that grants two slots and then reports idle lets `testReturn` return `TESTVAL`. */
  lemma TestReturnOnReadyEngine(p: Platform, d: Device)
    ensures var o := TestReturn(p, ArgsMagic, d, Env([1, 1], [0]));
            o.Returned? && o.code == p.testVal
  {
    var f: seq<Word>, b: seq<Word> := [1, 1], [0];
    assert f[1..][1..] == [] && b[1..] == [];
    assert Exits(f, false) == 2 && Exits(b, true) == 1;
    TestReturnReturns(p, d, Env(f, b));
  }

  /** The routine polls for a free slot twice and for the engine's idle state once. */
  lemma ContextPolls(c0: Context, c1: Context, c2: Context)
    ensures PollCount(ContextSteps(c0, c1, c2), false) == 2
    ensures PollCount(ContextSteps(c0, c1, c2), true) == 1
  {
    var A, B, C := [Clear, AwaitSlot], [Configure(c0), CommitJob], [Configure(c1), TriggerJob];
    var D, E, F := [AwaitSlot], [Configure(c2), TriggerJob], [AwaitIdle];
    assert ContextSteps(c0, c1, c2) == A + B + C + D + E + F;
    forall onZero: bool
      ensures PollCount(A + B + C + D + E + F, onZero)
                == PollCount(A, onZero) + PollCount(B, onZero) + PollCount(C, onZero)
                   + PollCount(D, onZero) + PollCount(E, onZero) + PollCount(F, onZero)
      ensures PollCount(A, onZero) == PollCount(D, onZero) == if onZero then 0 else 1
      ensures PollCount(B, onZero) == PollCount(C, onZero) == PollCount(E, onZero) == 0
      ensures PollCount(F, onZero) == if onZero then 1 else 0
    {
      PollCountAppend([Clear], [AwaitSlot], onZero);
      PollCountAppend([Configure(c0)], [CommitJob], onZero);
      PollCountAppend([Configure(c1)], [TriggerJob], onZero);
      PollCountAppend([Configure(c2)], [TriggerJob], onZero);
      PollCountOne(Clear, onZero);
      PollCountOne(AwaitSlot, onZero);
      PollCountOne(Configure(c0), onZero);
      PollCountOne(Configure(c1), onZero);
      PollCountOne(Configure(c2), onZero);
      PollCountOne(CommitJob, onZero);
      PollCountOne(TriggerJob, onZero);
      PollCountOne(AwaitIdle, onZero);
      PollCountAppend(A + B + C + D + E, F, onZero);
      PollCountAppend(A + B + C + D, E, onZero);
      PollCountAppend(A + B + C, D, onZero);
      PollCountAppend(A + B, C, onZero);
      PollCountAppend(A, B, onZero);
    }
  }

  /**
    For any three contexts, the routine's ten calls all complete exactly
    when the engine offers two slot reads of at least 1 and one busy read of 0.
   */
  lemma ContextRunCompletes(p: Platform, d: Device, env: Env, c0: Context, c1: Context, c2: Context)
    ensures Run(p, d, env, ContextSteps(c0, c1, c2)).Completed? <==>
              Exits(env.freeSlotReads, false) >= 2 && Exits(env.busyReads, true) >= 1
  {
    ContextPolls(c0, c1, c2);
    RunCompletes(p, d, env, ContextSteps(c0, c1, c2));
  }

  /** The same for any three contexts: a completed run leaves one snapshot per context, in order. */
  lemma RunSnapshots(p: Platform, d: Device, env: Env, c0: Context, c1: Context, c2: Context)
    ensures var r := Run(p, d, env, ContextSteps(c0, c1, c2));
            var done := r.dev.trace[|d.trace|..];
            var s := Snapshots(d.regs, done);
            r.Completed? ==>
              && done[|done| - 1] == Drained
              && |s| == 3
              && Holds(s[0], RqsImage(c0.rq)) && Holds(s[0], JobImage(p, c0.job))
              && Holds(s[1], RqsImage(c1.rq)) && Holds(s[1], JobImage(p, c1.job))
              && Holds(s[2], RqsImage(c2.rq)) && Holds(s[2], JobImage(p, c2.job))
  {
    var r := Run(p, d, env, ContextSteps(c0, c1, c2));
    if r.Completed? {
      var done := r.dev.trace[|d.trace|..];
      assert done == Trace(p, ContextSteps(c0, c1, c2), r.seen);
      CompleteTrace(p, c0, c1, c2, r.seen);
      ExpectedSnapshots(p, d.regs, c0, c1, c2, r.seen[1], r.seen[6]);
    }
  }
}
