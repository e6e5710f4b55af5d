/**
  Job runs: a cluster routine drives the engine as a sequence of driver
  calls (steps). Each step either completes, adding its events to the
  device's trace, or — for a status poll — spins for ever. This module
  interprets such sequences and proves, for every sequence of steps, what
  trace a run leaves and what the register block holds at each control
  store.
 */
module JobRun {
  import opened Words
  import opened Registers
  import opened Driver

  // ---------------------------------------------------------------------
  // Contexts
  // ---------------------------------------------------------------------

  /** One job context: its requantization parameters and its job registers. */
  datatype Context = Context(rq: RequantParams, job: JobConfig)

  /** The stores that program a context: requantization parameters, then job registers. */
  function ProgramWrites(p: Platform, ctx: Context): seq<Event>
  {
    RqsWrites(ctx.rq) + JobWrites(p, ctx.job)
  }

  /** Programming a context: `ita_write_rqs_params` followed by `ita_write_regs`. */
  function Program(p: Platform, d: Device, ctx: Context): (r: Device)
    ensures r.busy == d.busy
    ensures r.regs == d.regs + RqsImage(ctx.rq) + JobImage(p, ctx.job)
    ensures r.trace == d.trace + ProgramWrites(p, ctx)
  {
    WriteRegs(p, WriteRqsParams(d, ctx.rq), ctx.job)
  }

  /** Programming a context stores no control-register value. */
  lemma ProgramWritesNoControl(p: Platform, ctx: Context)
    ensures forall i :: 0 <= i < |ProgramWrites(p, ctx)| ==> !IsControlWrite(ProgramWrites(p, ctx)[i])
  {
  }

  /** In a context's stores, every requantization store comes before every job-register store. */
  lemma RequantBeforeJob(p: Platform, ctx: Context)
    ensures var es := ProgramWrites(p, ctx);
            forall i, j ::
              (0 <= i < |es| && 0 <= j < |es| &&
               es[i].offset in RqsImage(ctx.rq) && es[j].offset in JobImage(p, ctx.job)) ==> i < j
  {
    var es := ProgramWrites(p, ctx);
    var a := RqsWrites(ctx.rq);
    forall i | 0 <= i < |es| && es[i].offset in RqsImage(ctx.rq)
      ensures i < |a|
    {
    }
    forall j | 0 <= j < |es| && es[j].offset in JobImage(p, ctx.job)
      ensures j >= |a|
    {
    }
  }

  /** Every register of `image` holds its value in `regs`. */
  predicate Holds(regs: RegFile, image: RegFile)
  {
    forall o :: o in image ==> o in regs && regs[o] == image[o]
  }

  /** Replaying a context's stores overrides exactly its requantization and job registers. */
  lemma ProgramReplay(p: Platform, regs: RegFile, ctx: Context)
    ensures Replay(regs, ProgramWrites(p, ctx)) == regs + RqsImage(ctx.rq) + JobImage(p, ctx.job)
  {
    ReplayAppend(regs, RqsWrites(ctx.rq), JobWrites(p, ctx.job));
    RqsWritesImage(regs, ctx.rq);
    JobWritesImage(regs + RqsImage(ctx.rq), p, ctx.job);
  }

  /** Programming a context alone leaves no snapshot. */
  lemma ProgramNoSnapshot(p: Platform, regs: RegFile, ctx: Context)
    ensures Snapshots(regs, ProgramWrites(p, ctx)) == []
  {
    ProgramWritesNoControl(p, ctx);
    SnapshotsNoControl(regs, ProgramWrites(p, ctx));
  }

  /**
    Programming a context and then storing to the control register leaves
    exactly one snapshot, and it holds every register of that context,
    whatever the registers held before.
   */
  lemma ProgramSnapshot(p: Platform, regs: RegFile, ctx: Context, v: Word)
    ensures var s := Snapshots(regs, ProgramWrites(p, ctx) + [Write(CtrlReg, v)]);
            && |s| == 1
            && Holds(s[0], RqsImage(ctx.rq))
            && Holds(s[0], JobImage(p, ctx.job))
  {
    var es := ProgramWrites(p, ctx);
    var mid := Replay(regs, es);
    SnapshotsAppend(regs, es, [Write(CtrlReg, v)]);
    ProgramNoSnapshot(p, regs, ctx);
    assert Snapshots(mid, [Write(CtrlReg, v)]) == [mid[CtrlReg := v]] by {
      ReplayOne(mid, Write(CtrlReg, v));
      assert [Write(CtrlReg, v)][..0] == [];
    }
    ProgramReplay(p, regs, ctx);
    ControlKeepsImages(p, regs, ctx, v);
  }

  /** A store to the control register disturbs neither image of a context. */
  lemma ControlKeepsImages(p: Platform, regs: RegFile, ctx: Context, v: Word)
    ensures Holds((regs + RqsImage(ctx.rq) + JobImage(p, ctx.job))[CtrlReg := v], RqsImage(ctx.rq))
    ensures Holds((regs + RqsImage(ctx.rq) + JobImage(p, ctx.job))[CtrlReg := v], JobImage(p, ctx.job))
  {
    var a, b := RqsImage(ctx.rq), JobImage(p, ctx.job);
    var snap := (regs + a + b)[CtrlReg := v];
    forall o | o in a ensures o in snap && snap[o] == a[o] {
      assert o !in b && o != CtrlReg;
    }
    forall o | o in b ensures o in snap && snap[o] == b[o] {
      assert o != CtrlReg;
    }
  }

  // ---------------------------------------------------------------------
  // Steps
  // ---------------------------------------------------------------------

  /** One driver call of a routine. */
  datatype Step =
    | Clear               // ita_soft_clear
    | ClearKeepRegs       // ita_soft_clear_keep_regs
    | AwaitSlot           // ita_acquire_job
    | WriteRequant(rq: RequantParams)  // ita_write_rqs_params
    | WriteJob(job: JobConfig)         // ita_write_regs
    | Configure(ctx: Context)  // ita_write_rqs_params, then ita_write_regs, back to back
    | CommitJob           // ita_commit
    | TriggerJob          // ita_trigger
    | AwaitIdle           // ita_wait_job

  /** The events a completed step adds to the trace; `seen` is the status value a poll exited on. */
  function StepEvents(p: Platform, s: Step, seen: Word): seq<Event>
  {
    match s
    case Clear => [Write(SoftClearReg, 0)]
    case ClearKeepRegs => [Write(SoftClearReg, 1)]
    case AwaitSlot => [Acquired(seen)]
    case WriteRequant(rq) => RqsWrites(rq)
    case WriteJob(job) => JobWrites(p, job)
    case Configure(ctx) => ProgramWrites(p, ctx)
    case CommitJob => [Write(CtrlReg, CommitValue)]
    case TriggerJob => [Write(CtrlReg, TriggerValue)]
    case AwaitIdle => [Drained]
  }

  /** What the engine's status registers return to successive reads. */
  datatype Env = Env(freeSlotReads: seq<Word>, busyReads: seq<Word>)

  /** A step either completes, with the status value it exited on (0 for a store), or spins. */
  datatype Progress = Done(dev: Device, env: Env, seen: Word) | Stuck

  /** Carries out one step. */
  function Perform(p: Platform, d: Device, env: Env, s: Step): (r: Progress)
    ensures r.Stuck? <==>
              || (s.AwaitSlot? && forall j :: 0 <= j < |env.freeSlotReads| ==> env.freeSlotReads[j] < 1)
              || (s.AwaitIdle? && forall j :: 0 <= j < |env.busyReads| ==> env.busyReads[j] != 0)
    ensures r.Done? ==> r.dev.trace == d.trace + StepEvents(p, s, r.seen)
    ensures r.Done? ==> r.dev.regs == Replay(d.regs, StepEvents(p, s, r.seen))
    ensures r.Done? && s.AwaitSlot? ==> r.seen >= 1
    ensures r.Done? && s.AwaitIdle? ==> r.dev.busy == 0
  {
    match s
    case Clear =>
      ReplayOne(d.regs, Write(SoftClearReg, 0));
      Done(SoftClear(d), env, 0)
    case ClearKeepRegs =>
      ReplayOne(d.regs, Write(SoftClearReg, 1));
      Done(SoftClearKeepRegs(d), env, 0)
    case WriteRequant(rq) =>
      RqsWritesImage(d.regs, rq);
      Done(WriteRqsParams(d, rq), env, 0)
    case WriteJob(job) =>
      JobWritesImage(d.regs, p, job);
      Done(WriteRegs(p, d, job), env, 0)
    case AwaitSlot =>
      (match AcquireJob(d, env.freeSlotReads, 0)
       case Spinning => Stuck
       case Exited(d', n) =>
         ReplayOne(d.regs, Acquired(env.freeSlotReads[n]));
         Done(d', env.(freeSlotReads := env.freeSlotReads[n + 1..]), env.freeSlotReads[n]))
    case Configure(ctx) =>
      ProgramReplay(p, d.regs, ctx);
      Done(Program(p, d, ctx), env, 0)
    case CommitJob =>
      ReplayOne(d.regs, Write(CtrlReg, CommitValue));
      Done(Commit(d), env, 0)
    case TriggerJob =>
      ReplayOne(d.regs, Write(CtrlReg, TriggerValue));
      Done(Trigger(d), env, 0)
    case AwaitIdle =>
      (match WaitJob(d, env.busyReads, 0)
       case Spinning => Stuck
       case Exited(d', n) =>
         ReplayOne(d.regs, Drained);
         Done(d', env.(busyReads := env.busyReads[n + 1..]), env.busyReads[n]))
  }

  /**
    A `Configure` step is the two programming calls made one after the
    other: performing it is performing `ita_write_rqs_params` and then
    `ita_write_regs` on the device that leaves.
   */
  lemma ConfigureIsTwoCalls(p: Platform, d: Device, env: Env, ctx: Context)
    ensures var r1 := Perform(p, d, env, WriteRequant(ctx.rq));
            && r1.Done?
            && Perform(p, d, env, Configure(ctx)) == Perform(p, r1.dev, r1.env, WriteJob(ctx.job))
  {
    var d1 := WriteRqsParams(d, ctx.rq);
    assert Perform(p, d, env, WriteRequant(ctx.rq)) == Done(d1, env, 0);
    assert Perform(p, d1, env, WriteJob(ctx.job)) == Done(WriteRegs(p, d1, ctx.job), env, 0);
  }

  /** The events of the first `|seen|` steps, completed with the status values `seen`. */
  function Trace(p: Platform, steps: seq<Step>, seen: seq<Word>): seq<Event>
    requires |seen| <= |steps|
    decreases |seen|
  {
    if seen == [] then [] else StepEvents(p, steps[0], seen[0]) + Trace(p, steps[1..], seen[1..])
  }

  /** Every completed slot poll among the first `|seen|` steps exited on at least one free slot. */
  predicate Accepts(steps: seq<Step>, seen: seq<Word>)
    requires |seen| <= |steps|
  {
    forall i :: 0 <= i < |seen| ==> steps[i].AwaitSlot? ==> seen[i] >= 1
  }

  /** The outcome of a run: every step completed, or a poll spun for ever after the steps in `seen`. */
  datatype RunResult = Completed(dev: Device, seen: seq<Word>) | Stalled(dev: Device, seen: seq<Word>)

  /** Whether a step is a status poll, the only kind of step that can spin. */
  predicate IsPoll(s: Step)
  {
    s.AwaitSlot? || s.AwaitIdle?
  }

  /**
    Carries out `steps` in order, stopping at the first poll that spins.
    The trace grows by exactly the events of the steps that completed, and
    the register block is the old one with those events replayed on it.
   */
  function Run(p: Platform, d: Device, env: Env, steps: seq<Step>): (o: RunResult)
    ensures |o.seen| <= |steps|
    ensures o.Completed? <==> |o.seen| == |steps|
    ensures o.Stalled? ==> IsPoll(steps[|o.seen|])
    ensures o.dev.trace == d.trace + Trace(p, steps, o.seen)
    ensures o.dev.regs == Replay(d.regs, Trace(p, steps, o.seen))
    decreases |steps|
  {
    if steps == [] then Completed(d, [])
    else
      match Perform(p, d, env, steps[0])
      case Stuck => Stalled(d, [])
      case Done(d', env', v) =>
        var o := Run(p, d', env', steps[1..]);
        var seen := [v] + o.seen;
        assert seen[0] == v && seen[1..] == o.seen;
        AppendEvents(d.trace, StepEvents(p, steps[0], v), Trace(p, steps[1..], o.seen));
        ReplayAppend(d.regs, StepEvents(p, steps[0], v), Trace(p, steps[1..], o.seen));
        assert o.Stalled? ==> steps[1..][|o.seen|] == steps[|seen|];
        o.(seen := seen)
  }

  // ---------------------------------------------------------------------
  // When a run completes
  // ---------------------------------------------------------------------

  /**
    How many of the reads `obs` would end a poll: a busy poll (`onZero`) ends on a
    read of 0, a slot poll on a read of at least 1.
   */
  function Exits(obs: seq<Word>, onZero: bool): nat
  {
    if obs == [] then 0
    else (if (obs[0] == 0) == onZero then 1 else 0) + Exits(obs[1..], onZero)
  }

  /** Whether a step is a poll of the given kind. */
  predicate PollsOn(s: Step, onZero: bool)
  {
    if onZero then s.AwaitIdle? else s.AwaitSlot?
  }

  /** How many of `steps` are polls of the given kind. */
  function PollCount(steps: seq<Step>, onZero: bool): nat
  {
    if steps == [] then 0
    else (if PollsOn(steps[0], onZero) then 1 else 0) + PollCount(steps[1..], onZero)
  }

  /** Counting the polls of two runs of steps, one after the other, adds their counts. */
  lemma {:induction false} PollCountAppend(a: seq<Step>, b: seq<Step>, onZero: bool)
    ensures PollCount(a + b, onZero) == PollCount(a, onZero) + PollCount(b, onZero)
  {
    if a != [] {
      assert (a + b)[0] == a[0] && (a + b)[1..] == a[1..] + b;
      PollCountAppend(a[1..], b, onZero);
    } else {
      assert a + b == b;
    }
  }

  /** A single step counts once exactly when it is a poll of the given kind. */
  lemma PollCountOne(s: Step, onZero: bool)
    ensures PollCount([s], onZero) == if PollsOn(s, onZero) then 1 else 0
  {
    assert [s][1..] == [];
  }

  /** A poll can never end exactly when no read would end it. */
  lemma {:induction false} ExitsNone(obs: seq<Word>, onZero: bool)
    ensures Exits(obs, onZero) == 0 <==> forall j :: 0 <= j < |obs| ==> (obs[j] == 0) != onZero
  {
    if obs != [] {
      ExitsNone(obs[1..], onZero);
      assert forall j :: 1 <= j < |obs| ==> obs[1..][j - 1] == obs[j];
    }
  }

  /** A poll that ends on the first read that would end it leaves one such read fewer. */
  lemma {:induction false} ExitsAfter(obs: seq<Word>, n: nat, onZero: bool)
    requires n < |obs| && (obs[n] == 0) == onZero
    requires forall j :: 0 <= j < n ==> (obs[j] == 0) != onZero
    ensures Exits(obs[n + 1..], onZero) + 1 == Exits(obs, onZero)
  {
    if n > 0 {
      assert obs[1..][n..] == obs[n + 1..];
      ExitsAfter(obs[1..], n - 1, onZero);
    }
  }

  /**
    A step spins exactly when it is a poll no remaining read would end. A
    completed poll uses up one read that ends it, and nothing else.
   */
  lemma PerformConsumes(p: Platform, d: Device, env: Env, s: Step)
    ensures var r := Perform(p, d, env, s);
            && (r.Stuck? <==>
                  || (s.AwaitSlot? && Exits(env.freeSlotReads, false) == 0)
                  || (s.AwaitIdle? && Exits(env.busyReads, true) == 0))
            && (r.Done? ==>
                  && Exits(r.env.freeSlotReads, false) + (if s.AwaitSlot? then 1 else 0)
                       == Exits(env.freeSlotReads, false)
                  && Exits(r.env.busyReads, true) + (if s.AwaitIdle? then 1 else 0)
                       == Exits(env.busyReads, true))
  {
    ExitsNone(env.freeSlotReads, false);
    ExitsNone(env.busyReads, true);
    match s {
      case AwaitSlot =>
        match AcquireJob(d, env.freeSlotReads, 0) {
          case Spinning =>
          case Exited(_, n) => ExitsAfter(env.freeSlotReads, n, false);
        }
      case AwaitIdle =>
        match WaitJob(d, env.busyReads, 0) {
          case Spinning =>
          case Exited(_, n) => ExitsAfter(env.busyReads, n, true);
        }
      case _ =>
    }
  }

  /**
    A run completes exactly when the engine offers enough status reads: at
    least as many slot reads of at least 1 as there are slot polls, and at
    least as many busy reads of 0 as there are busy polls.
   */
  lemma {:induction false} RunCompletes(p: Platform, d: Device, env: Env, steps: seq<Step>)
    ensures Run(p, d, env, steps).Completed? <==>
              && PollCount(steps, false) <= Exits(env.freeSlotReads, false)
              && PollCount(steps, true) <= Exits(env.busyReads, true)
    decreases |steps|
  {
    if steps != [] {
      PerformConsumes(p, d, env, steps[0]);
      match Perform(p, d, env, steps[0])
      case Stuck =>
      case Done(d', env', v) =>
        RunCompletes(p, d', env', steps[1..]);
    }
  }

  /** A run whose first call completes goes on as the run of the remaining calls. */
  lemma RunCons(p: Platform, d: Device, env: Env, steps: seq<Step>)
    requires steps != [] && Perform(p, d, env, steps[0]).Done?
    ensures var r := Perform(p, d, env, steps[0]);
            var o, rest := Run(p, d, env, steps), Run(p, r.dev, r.env, steps[1..]);
            && o.Stalled? == rest.Stalled?
            && |o.seen| == |rest.seen| + 1
  {
  }

  /** A run whose first call spins stalls there, having completed nothing. */
  lemma RunStuckFirst(p: Platform, d: Device, env: Env, steps: seq<Step>)
    requires steps != [] && Perform(p, d, env, steps[0]).Stuck?
    ensures Run(p, d, env, steps) == Stalled(d, [])
    ensures Run(p, d, env, steps[..0]).Completed? && Run(p, d, env, steps[..1]).Stalled?
  {
    assert steps[..0] == [] && steps[..1] == [steps[0]];
  }

  /**
    A run stalls at the first call that spins: the calls before it all
    complete on their own, and the run of those calls plus the stalling one
    stalls.
   */
  lemma {:induction false} RunStallsAt(p: Platform, d: Device, env: Env, steps: seq<Step>)
    ensures var o := Run(p, d, env, steps);
            o.Stalled? ==> && Run(p, d, env, steps[..|o.seen|]).Completed?
                           && Run(p, d, env, steps[..|o.seen| + 1]).Stalled?
    decreases |steps|, 1
  {
    var o := Run(p, d, env, steps);
    if o.Stalled? {
      var r := Perform(p, d, env, steps[0]);
      if r.Stuck? {
        RunStuckFirst(p, d, env, steps);
      } else {
        RunStallsNext(p, d, env, steps);
      }
    }
  }

  /** The inductive step of `RunStallsAt`: a completed first call shifts the stalling call by one. */
  lemma {:induction false} RunStallsNext(p: Platform, d: Device, env: Env, steps: seq<Step>)
    requires steps != [] && Perform(p, d, env, steps[0]).Done?
    ensures var o := Run(p, d, env, steps);
            o.Stalled? ==> && Run(p, d, env, steps[..|o.seen|]).Completed?
                           && Run(p, d, env, steps[..|o.seen| + 1]).Stalled?
    decreases |steps|, 0
  {
    var r := Perform(p, d, env, steps[0]);
    RunStallsAt(p, r.dev, r.env, steps[1..]);
    var o := Run(p, d, env, steps);
    RunCons(p, d, env, steps);
    if o.Stalled? {
      RunConsPrefix(p, d, env, steps, |o.seen|);
      RunConsPrefix(p, d, env, steps, |o.seen| + 1);
    }
  }

  /** `RunCons` for the run of the first `j` calls. */
  lemma RunConsPrefix(p: Platform, d: Device, env: Env, steps: seq<Step>, j: nat)
    requires 1 <= j <= |steps| && Perform(p, d, env, steps[0]).Done?
    ensures var r := Perform(p, d, env, steps[0]);
            Run(p, d, env, steps[..j]).Stalled? == Run(p, r.dev, r.env, steps[1..][..j - 1]).Stalled?
  {
    var pre := steps[..j];
    assert pre[0] == steps[0] && pre[1..] == steps[1..][..j - 1];
    RunCons(p, d, env, pre);
  }

  /** Every slot poll a run completed exited on at least one free slot. */
  lemma {:induction false} RunAccepts(p: Platform, d: Device, env: Env, steps: seq<Step>)
    ensures Accepts(steps, Run(p, d, env, steps).seen)
    decreases |steps|
  {
    if steps != [] {
      match Perform(p, d, env, steps[0])
      case Stuck =>
      case Done(d', env', v) =>
        var o := Run(p, d', env', steps[1..]);
        RunAccepts(p, d', env', steps[1..]);
        var seen := Run(p, d, env, steps).seen;
        assert seen == [v] + o.seen;
        forall i | 1 <= i < |seen| && steps[i].AwaitSlot?
          ensures seen[i] >= 1
        {
          assert steps[1..][i - 1] == steps[i] && o.seen[i - 1] == seen[i];
        }
    }
  }

  /** A run whose first step is a store completes at least that step. */
  lemma RunStarts(p: Platform, d: Device, env: Env, steps: seq<Step>)
    requires steps != [] && !IsPoll(steps[0])
    ensures |Run(p, d, env, steps).seen| >= 1
  {
  }

  /** A completed run whose last step waits for the engine leaves it idle. */
  lemma {:induction false} RunEndsIdle(p: Platform, d: Device, env: Env, steps: seq<Step>)
    requires steps != [] && steps[|steps| - 1].AwaitIdle?
    ensures Run(p, d, env, steps).Completed? ==> Run(p, d, env, steps).dev.busy == 0
    decreases |steps|
  {
    match Perform(p, d, env, steps[0])
    case Stuck =>
    case Done(d', env', v) =>
      if |steps| > 1 {
        assert steps[1..][|steps[1..]| - 1] == steps[|steps| - 1];
        RunEndsIdle(p, d', env', steps[1..]);
      }
  }

  /** Completing more steps only extends the trace. */
  lemma {:induction false} TracePrefix(p: Platform, steps: seq<Step>, seen: seq<Word>, more: seq<Word>)
    requires |seen| + |more| <= |steps|
    ensures Trace(p, steps, seen) <= Trace(p, steps, seen + more)
    decreases |seen|
  {
    if seen != [] {
      assert (seen + more)[1..] == seen[1..] + more;
      TracePrefix(p, steps[1..], seen[1..], more);
    } else {
      assert seen + more == more;
    }
  }

  /** The trace of two runs of steps, one after the other, is the first trace followed by the second. */
  lemma {:induction false} TraceAppend(p: Platform, s1: seq<Step>, s2: seq<Step>, v1: seq<Word>, v2: seq<Word>)
    requires |v1| == |s1| && |v2| <= |s2|
    ensures Trace(p, s1 + s2, v1 + v2) == Trace(p, s1, v1) + Trace(p, s2, v2)
    decreases |v1|
  {
    if v1 == [] {
      assert s1 + s2 == s2 && v1 + v2 == v2;
    } else {
      var head := StepEvents(p, s1[0], v1[0]);
      assert (s1 + s2)[0] == s1[0] && (v1 + v2)[0] == v1[0];
      assert (s1 + s2)[1..] == s1[1..] + s2 && (v1 + v2)[1..] == v1[1..] + v2;
      calc {
        Trace(p, s1 + s2, v1 + v2);
        head + Trace(p, s1[1..] + s2, v1[1..] + v2);
        { TraceAppend(p, s1[1..], s2, v1[1..], v2); }
        head + (Trace(p, s1[1..], v1[1..]) + Trace(p, s2, v2));
        { AppendEvents(head, Trace(p, s1[1..], v1[1..]), Trace(p, s2, v2)); }
        Trace(p, s1, v1) + Trace(p, s2, v2);
      }
    }
  }

  /** The trace of one completed step is that step's events. */
  lemma TraceOne(p: Platform, a: Step, x: Word)
    ensures Trace(p, [a], [x]) == StepEvents(p, a, x)
  {
    assert [x][1..] == [];
  }

  /** The trace of two completed steps is their events in order. */
  lemma TraceTwo(p: Platform, a: Step, b: Step, x: Word, y: Word)
    ensures Trace(p, [a, b], [x, y]) == StepEvents(p, a, x) + StepEvents(p, b, y)
  {
    assert [a, b][1..] == [b] && [x, y][1..] == [y];
    TraceOne(p, b, y);
  }
}
