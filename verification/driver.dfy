/**
  The register-level primitives of the ITA driver header: programming a job
  and its requantization parameters, soft clear, commit, trigger, and the
  two status polls. Each primitive is a pure update of a `Device`.
 */
module Driver {
  import opened Words
  import opened Registers

  /**
    Platform constants defined outside the driver: the cluster's base
    address (job addresses are stored relative to it), the start of the
    cluster's tightly coupled data memory, and the value a passing test
    returns.
   */
  datatype Platform = Platform(clusterBase: Word, tcdmStart: Word, testVal: Int32)

  /** The arguments of one job-programming call. */
  datatype JobConfig = JobConfig(inputAddr: Word, weightAddr: Word, weightNextAddr: Word,
                                 biasAddr: Word, outputAddr: Word,
                                 tiles: Word, layer: Word, flags: Word)

  /** The arguments of one requantization-programming call. */
  datatype RequantParams = RequantParams(eps1: Word, eps2: Word, shift1: Word, shift2: Word,
                                         add1: Word, add2: Word)

  /** The value a control-register store takes for commit and for trigger. */
  const CommitValue: Word := 1
  const TriggerValue: Word := 0

  /** An absolute address as the offset the engine expects: wrapping 32-bit subtraction, never clamped. */
  function Translate(addr: Word, base: Word): (off: Word)
    ensures off == (addr - base) % Modulus
    ensures (off + base) % Modulus == addr
  {
    if base <= addr then addr - base else addr - base + Modulus
  }

  /**
    `es` stores, in strictly ascending register order, exactly the values
    `image` gives for the registers it names.
   */
  predicate WritesInOrder(es: seq<Event>, image: RegFile)
  {
    && (forall i :: 0 <= i < |es| ==>
          es[i].Write? && es[i].offset in image && es[i].value == image[es[i].offset])
    && (forall i, j :: 0 <= i < j < |es| ==> es[i].offset < es[j].offset)
  }

  // ---------------------------------------------------------------------
  // Job registers
  // ---------------------------------------------------------------------

  /** The registers a job-programming call sets, with their values. */
  function JobImage(p: Platform, c: JobConfig): RegFile
  {
    map[InputAddrReg := Translate(c.inputAddr, p.clusterBase),
        WeightAddrReg := Translate(c.weightAddr, p.clusterBase),
        WeightNextAddrReg := Translate(c.weightNextAddr, p.clusterBase),
        BiasAddrReg := Translate(c.biasAddr, p.clusterBase),
        OutputAddrReg := Translate(c.outputAddr, p.clusterBase),
        TilesReg := c.tiles,
        LayerReg := c.layer,
        FlagsReg := c.flags]
  }

  /** The stores of a job-programming call, in program order. */
  function JobWrites(p: Platform, c: JobConfig): seq<Event>
  {
    [Write(InputAddrReg, Translate(c.inputAddr, p.clusterBase)),
     Write(WeightAddrReg, Translate(c.weightAddr, p.clusterBase)),
     Write(WeightNextAddrReg, Translate(c.weightNextAddr, p.clusterBase)),
     Write(BiasAddrReg, Translate(c.biasAddr, p.clusterBase)),
     Write(OutputAddrReg, Translate(c.outputAddr, p.clusterBase)),
     Write(TilesReg, c.tiles),
     Write(LayerReg, c.layer),
     Write(FlagsReg, c.flags)]
  }

  /** Replaying a job's stores on any register block overrides exactly the job's registers. */
  lemma JobWritesImage(regs: RegFile, p: Platform, c: JobConfig)
    ensures Replay(regs, JobWrites(p, c)) == regs + JobImage(p, c)
  {
    var es := JobWrites(p, c);
    var v := seq(8, i requires 0 <= i < 8 => es[i].value);
    calc {
      Replay(regs, es);
      == { assert es == es[..7] + [es[7]];
           assert es[..7] == es[..6] + [es[6]];
           assert es[..6] == es[..5] + [es[5]];
           assert es[..5] == es[..4] + [es[4]];
           assert es[..4] == es[..3] + [es[3]];
           assert es[..3] == es[..2] + [es[2]];
           assert es[..2] == es[..1] + [es[1]];
           assert es[..1] == [] + [es[0]];
           ReplaySnoc(regs, es[..7], es[7]);
           ReplaySnoc(regs, es[..6], es[6]);
           ReplaySnoc(regs, es[..5], es[5]);
           ReplaySnoc(regs, es[..4], es[4]);
           ReplaySnoc(regs, es[..3], es[3]);
           ReplaySnoc(regs, es[..2], es[2]);
           ReplaySnoc(regs, es[..1], es[1]);
           ReplaySnoc(regs, [], es[0]); }
      regs[InputAddrReg := v[0]][WeightAddrReg := v[1]][WeightNextAddrReg := v[2]][BiasAddrReg := v[3]]
          [OutputAddrReg := v[4]][TilesReg := v[5]][LayerReg := v[6]][FlagsReg := v[7]];
      regs + JobImage(p, c);
    }
  }

  /** `ita_write_regs`: programs the five job addresses, the tile word, the layer word and the flags word. */
  function WriteRegs(p: Platform, d: Device, c: JobConfig): (r: Device)
    ensures r.busy == d.busy
    ensures r.regs == d.regs + JobImage(p, c)
    ensures r.trace == d.trace + JobWrites(p, c) && |JobWrites(p, c)| == 8
    ensures WritesInOrder(JobWrites(p, c), JobImage(p, c))
  {
    JobWritesImage(d.regs, p, c);
    Issue(d, JobWrites(p, c))
  }

  // ---------------------------------------------------------------------
  // Requantization registers
  // ---------------------------------------------------------------------

  /** The registers a requantization call sets, with their values. */
  function RqsImage(rq: RequantParams): RegFile
  {
    map[Eps1Reg := rq.eps1, Eps2Reg := rq.eps2, Shift1Reg := rq.shift1,
        Shift2Reg := rq.shift2, Add1Reg := rq.add1, Add2Reg := rq.add2]
  }

  /** The stores of a requantization call, in program order. */
  function RqsWrites(rq: RequantParams): seq<Event>
  {
    [Write(Eps1Reg, rq.eps1), Write(Eps2Reg, rq.eps2), Write(Shift1Reg, rq.shift1),
     Write(Shift2Reg, rq.shift2), Write(Add1Reg, rq.add1), Write(Add2Reg, rq.add2)]
  }

  /** Replaying the requantization stores on any register block overrides exactly those six registers. */
  lemma RqsWritesImage(regs: RegFile, rq: RequantParams)
    ensures Replay(regs, RqsWrites(rq)) == regs + RqsImage(rq)
  {
    var es := RqsWrites(rq);
    calc {
      Replay(regs, es);
      == { assert es == es[..5] + [es[5]];
           assert es[..5] == es[..4] + [es[4]];
           assert es[..4] == es[..3] + [es[3]];
           assert es[..3] == es[..2] + [es[2]];
           assert es[..2] == es[..1] + [es[1]];
           assert es[..1] == [] + [es[0]];
           ReplaySnoc(regs, es[..5], es[5]);
           ReplaySnoc(regs, es[..4], es[4]);
           ReplaySnoc(regs, es[..3], es[3]);
           ReplaySnoc(regs, es[..2], es[2]);
           ReplaySnoc(regs, es[..1], es[1]);
           ReplaySnoc(regs, [], es[0]); }
      regs[Eps1Reg := rq.eps1][Eps2Reg := rq.eps2][Shift1Reg := rq.shift1]
          [Shift2Reg := rq.shift2][Add1Reg := rq.add1][Add2Reg := rq.add2];
      regs + RqsImage(rq);
    }
  }

  /** `ita_write_rqs_params`: stores eps1, eps2, shift1, shift2, add1, add2 at 0x3C..0x50, stride 4. */
  function WriteRqsParams(d: Device, rq: RequantParams): (r: Device)
    ensures r.busy == d.busy
    ensures r.regs == d.regs + RqsImage(rq)
    ensures r.trace == d.trace + RqsWrites(rq) && |RqsWrites(rq)| == 6
    ensures WritesInOrder(RqsWrites(rq), RqsImage(rq))
    ensures forall i :: 0 <= i < 6 ==> RqsWrites(rq)[i].offset == Eps1Reg + 4 * i
  {
    RqsWritesImage(d.regs, rq);
    Issue(d, RqsWrites(rq))
  }

  /** The two programming calls touch disjoint registers, so either order leaves the same register block. */
  lemma WritesCommute(p: Platform, d: Device, c: JobConfig, rq: RequantParams)
    ensures WriteRegs(p, WriteRqsParams(d, rq), c).regs == WriteRqsParams(WriteRegs(p, d, c), rq).regs
  {
    var a, b := RqsImage(rq), JobImage(p, c);
    assert a.Keys !! b.Keys;
    var x, y := d.regs + a + b, d.regs + b + a;
    assert x.Keys == y.Keys;
    forall o | o in x ensures x[o] == y[o] {
      if o in a { assert o !in b; }
    }
  }

  // ---------------------------------------------------------------------
  // Single-register stores
  // ---------------------------------------------------------------------

  /** `ita_soft_clear`: stores 0 (clear everything) to the soft-clear register. */
  function SoftClear(d: Device): (r: Device)
    ensures r.busy == d.busy
    ensures r.regs == d.regs[SoftClearReg := 0]
    ensures r.trace == d.trace + [Write(SoftClearReg, 0)]
  {
    ReplayOne(d.regs, Write(SoftClearReg, 0));
    Issue(d, [Write(SoftClearReg, 0)])
  }

  /** `ita_soft_clear_keep_regs`: stores 1 (keep programmed registers) to the soft-clear register. */
  function SoftClearKeepRegs(d: Device): (r: Device)
    ensures r.busy == d.busy
    ensures r.regs == d.regs[SoftClearReg := 1]
    ensures r.trace == d.trace + [Write(SoftClearReg, 1)]
  {
    ReplayOne(d.regs, Write(SoftClearReg, 1));
    Issue(d, [Write(SoftClearReg, 1)])
  }

  /** `ita_commit`: stores 1 to the control register. */
  function Commit(d: Device): (r: Device)
    ensures r.busy == d.busy
    ensures r.regs == d.regs[CtrlReg := 1]
    ensures r.trace == d.trace + [Write(CtrlReg, 1)]
  {
    ReplayOne(d.regs, Write(CtrlReg, CommitValue));
    Issue(d, [Write(CtrlReg, CommitValue)])
  }

  /** `ita_trigger`: stores 0 to the control register. */
  function Trigger(d: Device): (r: Device)
    ensures r.busy == d.busy
    ensures r.regs == d.regs[CtrlReg := 0]
    ensures r.trace == d.trace + [Write(CtrlReg, 0)]
  {
    ReplayOne(d.regs, Write(CtrlReg, TriggerValue));
    Issue(d, [Write(CtrlReg, TriggerValue)])
  }

  // ---------------------------------------------------------------------
  // Status polls. The engine's status words come from the environment as
  // the sequence of values successive reads return.
  // ---------------------------------------------------------------------

  /** A poll either exits on the read at index `at`, or spins through every read offered. */
  datatype Poll = Exited(dev: Device, at: nat) | Spinning

  /**
    `ita_acquire_job`: reads the free-slot register, taking successive
    values from `observed[i..]`, until it holds at least 1. It stores
    nothing; the device records the count it saw.
   */
  function AcquireJob(d: Device, observed: seq<Word>, i: nat): (r: Poll)
    requires i <= |observed|
    ensures r.Spinning? <==> forall j :: i <= j < |observed| ==> observed[j] < 1
    ensures r.Exited? ==>
              && i <= r.at < |observed|
              && observed[r.at] >= 1
              && (forall j :: i <= j < r.at ==> observed[j] < 1)
              && r.dev.regs == d.regs[FreeSlotsReg := observed[r.at]]
              && r.dev.busy == d.busy
              && r.dev.trace == d.trace + [Acquired(observed[r.at])]
    decreases |observed| - i
  {
    if i == |observed| then Spinning
    else if observed[i] >= 1 then
      ReplayOne(d.regs, Acquired(observed[i]));
      Exited(Issue(d, [Acquired(observed[i])]), i)
    else AcquireJob(d, observed, i + 1)
  }

  /**
    `ita_wait_job`: reads the busy register, taking successive values from
    `observed[i..]`, until it holds 0. It stores nothing; the device
    records that the engine was seen idle.
   */
  function WaitJob(d: Device, observed: seq<Word>, i: nat): (r: Poll)
    requires i <= |observed|
    ensures r.Spinning? <==> forall j :: i <= j < |observed| ==> observed[j] != 0
    ensures r.Exited? ==>
              && i <= r.at < |observed|
              && observed[r.at] == 0
              && (forall j :: i <= j < r.at ==> observed[j] != 0)
              && r.dev.regs == d.regs
              && r.dev.busy == 0
              && r.dev.trace == d.trace + [Drained]
    decreases |observed| - i
  {
    if i == |observed| then Spinning
    else if observed[i] == 0 then
      ReplayOne(d.regs, Drained);
      Exited(Issue(d, [Drained]).(busy := 0), i)
    else WaitJob(d, observed, i + 1)
  }
}
