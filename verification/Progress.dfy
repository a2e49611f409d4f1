/** Every thread of every interleaving finishes: a number read off its call bounds the turns it needs, whatever its
    jobs do and whatever the other threads do meanwhile. */
module Progress {
  import opened Errors
  import opened World
  import opened Interpreter
  import opened Machine
  import opened Interleaving
  import opened SharedSafety
  import opened Amplification

  /** The most steps a job takes to its end: of a choice, those of the longer branch; of a retried run, those of
      all its rounds. */
  function JobSteps(budget: nat, job: Job): nat {
    match job
    case Return(_, _) => 1
    case Raise(_) => 1
    case GetDB(_, next) => 1 + JobSteps(budget, next)
    case DeriveNoTx(_, next) => 1 + JobSteps(budget, next)
    case Write(_, _, next) => 1 + JobSteps(budget, next)
    case IfError(_, failed, passed) => 1 + Max(JobSteps(budget, failed), JobSteps(budget, passed))
    case Invoke(_, branches) => 1 + LongestSteps(budget, branches)
    case Run(call, next) => 2 + RunSteps(budget, JobSteps(budget, call.body)) + JobSteps(budget, next)
  }

  function LongestSteps(budget: nat, branches: seq<Job>): (r: nat)
    ensures forall i :: 0 <= i < |branches| ==> JobSteps(budget, branches[i]) <= r
  {
    if branches == [] then 0 else Max(JobSteps(budget, branches[0]), LongestSteps(budget, branches[1..]))
  }

  /** A job's end is followed by at most three steps: commit, roll back, close. An attempt starts with one, and a
      round adds one before it and one after it. */
  function RunSteps(budget: nat, body: nat): nat {
    1 + budget * RoundSteps(body)
  }

  function RoundSteps(body: nat): nat {
    body + 6
  }

  function RoundsLeft(budget: nat, i: nat): nat {
    if i < budget then budget - i else 0
  }

  function CallSteps(budget: nat, call: Call): nat {
    RunSteps(budget, JobSteps(budget, call.body))
  }

  /** What remains to be done by the frames that wait for the present one. */
  function KontSteps(budget: nat, k: Kont): nat {
    match k
    case Finished => 0
    case Resume(_, next, rest) => 4 + JobSteps(budget, next) + KontSteps(budget, rest)
    case InTx(_, _, _, _, rest) => KontSteps(budget, rest)
    case InNoTx(_, _, _, rest) => KontSteps(budget, rest)
    case Round(_, call, i, rest) =>
      1 + RoundsLeft(budget, i + 1) * RoundSteps(JobSteps(budget, call.body)) + KontSteps(budget, rest)
  }

  function StepsLeft(budget: nat, s: State): nat {
    KontSteps(budget, s.kont) +
    match s.control
    case Executing(_, job) => 3 + JobSteps(budget, job)
    case Calling(_, call) => CallSteps(budget, call)
    case Trying(_, call, i) => (1 + RoundsLeft(budget, i + 1)) * RoundSteps(JobSteps(budget, call.body))
    case Attempting(_, call) => 4 + JobSteps(budget, call.body)
    case JobEnded(_) => 3
    case Deferring(_, _) => 2
    case Closing(_, _) => 1
    case Ended(_, _) => 0
  }

  predicate Done(s: State) {
    s.control.Ended? && s.kont.Finished?
  }

  /** Every step of a thread that is not done brings it nearer its end. */
  ghost predicate Nearer(budget: nat, s: State, s': State) {
    StepsLeft(budget, s') < StepsLeft(budget, s)
  }

  lemma ExecNearer(env: Env, s: State)
    requires ValidEnv(env) && WellFormed(s.w) && ThreadOk(s) && s.control.Executing?
    ensures Nearer(Budget(env), s, Micro(env, s))
  {
    hide ThreadOk, WellFormed, ValidEnv;
    if !s.control.job.Run? {
      ActNearer(env, s.w, s.control.locals, s.control.job);
    }
  }

  lemma ActNearer(env: Env, w: World, l: Locals, job: Job)
    requires WellFormed(w) && !job.Run?
    ensures var p := Act(env, w, l, job).1;
            p.GoesOn? ==> JobSteps(Budget(env), p.next) < JobSteps(Budget(env), job)
    ensures JobSteps(Budget(env), job) > 0
  {
    hide WellFormed, Grows;
  }

  lemma CallNearer(env: Env, s: State)
    requires ValidEnv(env) && WellFormed(s.w) && (s.control.Calling? || s.control.Trying? || s.control.Attempting?)
    ensures Nearer(Budget(env), s, Micro(env, s))
  {
    hide ThreadOk, WellFormed, JobSteps;
    var b := Budget(env);
    var steps := RoundSteps(JobSteps(b, s.control.call.body));
    if s.control.Calling? {
      OneMore(b, steps);
    } else if s.control.Trying? {
      OneMore(1 + RoundsLeft(b, s.control.i + 1), steps);
    }
  }

  lemma FinishNearer(env: Env, s: State)
    requires ValidEnv(env) && WellFormed(s.w) && ThreadOk(s)
    requires s.control.JobEnded? || s.control.Deferring? || s.control.Closing?
    ensures Nearer(Budget(env), s, Micro(env, s))
  {
    hide WellFormed, ValidEnv, JobSteps;
  }

  lemma EndNearer(env: Env, s: State)
    requires ValidEnv(env) && WellFormed(s.w) && ThreadOk(s) && s.control.Ended? && !s.kont.Finished?
    ensures Nearer(Budget(env), s, Micro(env, s))
  {
    hide WellFormed, ValidEnv, JobSteps, NeedRetry, Delay;
    if s.kont.Round? {
      var b := Budget(env);
      var steps := RoundSteps(JobSteps(b, s.kont.call.body));
      if RoundsLeft(b, s.kont.i + 1) > 0 {
        OneMore(RoundsLeft(b, s.kont.i + 1), steps);
      }
    }
  }

  lemma MicroNearer(env: Env, s: State)
    requires ValidEnv(env) && WellFormed(s.w) && ThreadOk(s) && !Done(s)
    ensures Nearer(Budget(env), s, Micro(env, s))
  {
    hide ThreadOk, Micro, Nearer;
    match s.control
    case Executing(_, _) => ExecNearer(env, s);
    case Calling(_, _) => CallNearer(env, s);
    case Trying(_, _, _) => CallNearer(env, s);
    case Attempting(_, _) => CallNearer(env, s);
    case Ended(_, _) => EndNearer(env, s);
    case _ => FinishNearer(env, s);
  }

  // ----- Whole schedules -----

  /** However the turns are dealt, a thread that is not done has spent every one of its own on getting nearer. */
  lemma {:induction false} TurnsSpent(envs: seq<Env>, calls: seq<Call>, sched: seq<nat>, i: nat)
    requires |envs| == |calls| && forall j :: 0 <= j < |envs| ==> ValidEnv(envs[j])
    requires ValidSchedule(sched, |envs|) && i < |envs|
    ensures var s := View(RunSchedule(Start(envs, calls), sched), i);
            !Done(s) ==> StepsLeft(Budget(envs[i]), s) + Turns(sched, i) <= CallSteps(Budget(envs[i]), calls[i])
  {
    hide Safe, Micro, StepsLeft, CallSteps, ThreadOk;
    var m := Start(envs, calls);
    if sched == [] {
      StartSteps(envs, calls, i);
    } else {
      var before, j := sched[..|sched| - 1], sched[|sched| - 1];
      TurnsSpent(envs, calls, before, i);
      var m0 := RunSchedule(m, before);
      var s := View(m0, i);
      EveryMomentSafe(envs, calls, before);
      SafeThread(m0, i);
      ScheduleKeepsEnvs(m, before, i);
      if j == i {
        if Done(s) {
          FinishedStep(envs[i], s);
        } else {
          MicroNearer(envs[i], s);
        }
      }
      TurnTaken(Budget(envs[i]), m0, j, i);
    }
  }

  lemma StartSteps(envs: seq<Env>, calls: seq<Call>, i: nat)
    requires |envs| == |calls| && i < |envs|
    ensures StepsLeft(Budget(envs[i]), View(Start(envs, calls), i)) == CallSteps(Budget(envs[i]), calls[i])
  {
  }

  lemma SafeThread(m: System, i: nat)
    requires Safe(m) && i < |m.threads|
    ensures ThreadOk(View(m, i))
  {
  }

  /** A turn takes the thread whose turn it is one step, and leaves to the others what they have to do. */
  lemma TurnTaken(budget: nat, m: System, j: nat, i: nat)
    requires ValidSystem(m) && j < |m.threads| && i < |m.threads|
    ensures var s := View(StepThread(m, j), i);
            && (j == i ==> s == Micro(m.threads[i].env, View(m, i)))
            && (j != i ==> Done(s) == Done(View(m, i)) && StepsLeft(budget, s) == StepsLeft(budget, View(m, i)))
  {
    hide Micro;
  }

  /** Liveness: given as many turns as its call bounds, a thread is done, after any schedule. */
  lemma EveryThreadFinishes(envs: seq<Env>, calls: seq<Call>, sched: seq<nat>, i: nat)
    requires |envs| == |calls| && forall j :: 0 <= j < |envs| ==> ValidEnv(envs[j])
    requires ValidSchedule(sched, |envs|) && i < |envs|
    requires Turns(sched, i) >= CallSteps(Budget(envs[i]), calls[i])
    ensures Done(View(RunSchedule(Start(envs, calls), sched), i))
  {
    hide RunSchedule, Turns, CallSteps, ThreadOk, Safe;
    var m := RunSchedule(Start(envs, calls), sched);
    TurnsSpent(envs, calls, sched, i);
    EveryMomentSafe(envs, calls, sched);
    SafeThread(m, i);
    if !Done(View(m, i)) {
      MicroNearer(envs[i], View(m, i));
    }
  }

  /** So a thread whose jobs keep to their own contexts ends, within that bound, with the result and error of its
      call alone, after the same events. */
  lemma OwnThreadCompletes(envs: seq<Env>, calls: seq<Call>, sched: seq<nat>, i: nat)
    requires |envs| == |calls|
    requires forall j :: 0 <= j < |envs| ==> ValidEnv(envs[j]) && OwnJob(calls[j].body)
    requires ValidSchedule(sched, |envs|) && i < |envs|
    requires Turns(sched, i) >= CallSteps(Budget(envs[i]), calls[i])
    ensures var s := View(RunSchedule(Start(envs, calls), sched), i);
            var r := RunCall(envs[i], EMPTY_WORLD, NO_LOCALS, calls[i]);
            s.control == Ended(r.res, r.err) && exists names :: SameWorld(names, r.w, s.w)
  {
    hide RunSchedule, Turns, CallSteps, RunCall, SameWorld, OwnJob;
    EveryThreadFinishes(envs, calls, sched, i);
    InterleavedOutcome(envs, calls, sched, i);
  }

  /** When every thread has had its turns nothing is left open: every channel ever made is closed and every
      transaction ever begun is committed or rolled back, also where threads used each other's. */
  lemma NothingIsLeft(envs: seq<Env>, calls: seq<Call>, sched: seq<nat>)
    requires |envs| == |calls| && forall j :: 0 <= j < |envs| ==> ValidEnv(envs[j])
    requires ValidSchedule(sched, |envs|)
    requires forall i :: 0 <= i < |envs| ==> Turns(sched, i) >= CallSteps(Budget(envs[i]), calls[i])
    ensures var w := RunSchedule(Start(envs, calls), sched).shared;
            && (forall ch :: 0 <= ch < |w.chans| ==> !w.chans[ch])
            && (forall t :: 0 <= t < |w.txs| ==> Over(w.txs[t]))
  {
    hide RunSchedule, Turns, CallSteps, ThreadOk, LogComplete;
    var m := RunSchedule(Start(envs, calls), sched);
    EveryMomentSafe(envs, calls, sched);
    forall i | 0 <= i < |m.threads| ensures m.threads[i].kont == Finished {
      EveryThreadFinishes(envs, calls, sched, i);
      assert Done(View(m, i));
    }
  }
}
