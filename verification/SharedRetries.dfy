/** Atomicity of retried calls in every interleaving of any jobs, also of jobs that use each other's contexts and
    handles: of the transactions a call's attempts begin at most the last is committed, exactly when it returns nil. */
module SharedRetries {
  import opened Options
  import opened Errors
  import opened World
  import opened Interpreter
  import opened Machine
  import opened Interleaving
  import opened SharedSafety
  import opened SharedRouting
  import opened Progress
  import opened Effects

  /** A call, the variables it was made with, and the frames that wait for it to return. */
  datatype CallAt = CallAt(locals: Locals, call: Call, k: Kont)

  predicate Made(c: CallAt, s: State) {
    s.control == Calling(c.locals, c.call) && s.kont == c.k
  }

  predicate Returned(c: CallAt, s: State) {
    s.control.Ended? && s.kont == c.k
  }

  /** The step from s to s' begins the transaction of one of the call's attempts. */
  predicate BeginsAttempt(c: CallAt, s: State, s': State) {
    && s.control.Attempting? && (s.kont == c.k || (s.kont.Round? && s.kont.rest == c.k))
    && s'.kont.InTx? && s'.kont.rest == s.kont
  }

  function BegunBy(c: CallAt, s: State, s': State): seq<TxId> {
    if BeginsAttempt(c, s, s') then [s'.kont.tx] else []
  }

  /** The transactions the attempts of thread i's call begin along a schedule, in order. */
  function AttemptTxs(m: System, sched: seq<nat>, i: nat, c: CallAt): seq<TxId>
    requires ValidSystem(m) && ValidSchedule(sched, |m.threads|) && i < |m.threads|
  {
    if sched == [] then []
    else
      var before := sched[..|sched| - 1];
      var m1 := RunSchedule(m, before);
      AttemptTxs(m, before, i, c) +
      (if sched[|sched| - 1] == i then BegunBy(c, View(m1, i), View(StepThread(m1, i), i)) else [])
  }

  /** All begun transactions are discarded, but for the last if the call returns nil: that one is committed. */
  ghost predicate OnlyWinnerCommitted(w: World, own: seq<TxId>, err: Option<Error>) {
    forall j :: 0 <= j < |own| ==>
      HasStatus(w, own[j], if err.None? && j == |own| - 1 then Committed else Discarded)
  }

  /** What a call that is about to return, or has returned, has done. */
  ghost predicate EndedWell(w: World, call: Call, own: seq<TxId>, err: Option<Error>) {
    && OnlyWinnerCommitted(w, own, err)
    && (err.None? && call.TxCall? ==> own != [])
    && (call.NoTxCall? ==> own == [])
  }

  ghost predicate AllDiscarded(w: World, own: seq<TxId>) {
    forall j :: 0 <= j < |own| ==> HasStatus(w, own[j], Discarded)
  }

  // ----- Where a call is -----

  /** The frames below an attempt of the call. */
  predicate AtRound(env: Env, c: CallAt, k: Kont) {
    if env.retrier.None? then k == c.k
    else k.Round? && k.locals == c.locals && k.call == c.call && k.rest == c.k && k.i < Budget(env)
  }

  /** How many attempts came before the one on these frames, at most. */
  function Earlier(env: Env, k: Kont): nat {
    if env.retrier.Some? && k.Round? then k.i else 0
  }

  ghost predicate BeforeAttempt(env: Env, c: CallAt, s: State, own: seq<TxId>) {
    && AllDiscarded(s.w, own) && (c.call.NoTxCall? ==> own == [])
    && match s.control
       case Calling(l, call) => l == c.locals && call == c.call && s.kont == c.k && own == []
       case Trying(l, call, i) =>
         && l == c.locals && call == c.call && s.kont == c.k
         && env.retrier.Some? && i < Budget(env) && |own| <= i
       case Attempting(l, call) =>
         l == c.locals && call == c.call && AtRound(env, c, s.kont) && |own| <= Earlier(env, s.kont)
       case _ => false
  }

  ghost predicate InAttempt(env: Env, c: CallAt, s: State, own: seq<TxId>, run: Kont) {
    && Within(s.kont, run) && InJob(run) && AtRound(env, c, run.rest)
    && |own| <= Earlier(env, run.rest) + 1
    && (if run.InTx? then own != [] && own[|own| - 1] == run.tx && AllDiscarded(s.w, own[..|own| - 1]) else own == [])
    && (run.InTx? <==> c.call.TxCall?)
  }

  ghost predicate AfterAttempt(env: Env, c: CallAt, s: State, own: seq<TxId>) {
    && s.control.Ended? && AtRound(env, c, s.kont)
    && |own| <= Earlier(env, s.kont) + 1
    && EndedWell(s.w, c.call, own, s.control.err)
  }

  ghost predicate AfterCall(env: Env, c: CallAt, s: State, own: seq<TxId>) {
    Returned(c, s) && |own| <= Budget(env) && EndedWell(s.w, c.call, own, s.control.err)
  }

  ghost predicate Tracked(env: Env, c: CallAt, s: State, own: seq<TxId>) {
    || BeforeAttempt(env, c, s, own)
    || (exists run :: InAttempt(env, c, s, own, run))
    || AfterAttempt(env, c, s, own)
    || AfterCall(env, c, s, own)
  }

  // ----- Depth: frames of an attempt are above the call's -----

  function Depth(k: Kont): nat {
    if k.Finished? then 0 else 1 + Depth(k.rest)
  }

  lemma {:induction false} WithinDepth(k: Kont, run: Kont)
    requires Within(k, run)
    ensures Depth(run) <= Depth(k)
  {
    if k == run {
    } else {
      WithinDepth(k.rest, run);
    }
  }

  lemma RoundDepth(env: Env, c: CallAt, k: Kont)
    requires AtRound(env, c, k)
    ensures Depth(c.k) <= Depth(k)
    ensures env.retrier.Some? ==> Depth(c.k) < Depth(k)
  {
  }

  /** No step inside an attempt's run begins another attempt of the same call. */
  lemma InAttemptIsAbove(env: Env, c: CallAt, s: State, own: seq<TxId>, run: Kont)
    requires InAttempt(env, c, s, own, run)
    ensures s.kont != c.k && (s.kont.Round? ==> s.kont.rest != c.k)
  {
    WithinDepth(s.kont, run);
    RoundDepth(env, c, run.rest);
    if s.kont.Round? {
      WithinDepth(s.kont.rest, run);
    }
  }

  // ----- One step of the thread itself -----

  /** What is over stays as it is, whoever steps. */
  ghost predicate OverKept(w: World, w': World) {
    |w.txs| <= |w'.txs| && forall t :: 0 <= t < |w.txs| && Over(w.txs[t]) ==> w'.txs[t].status == w.txs[t].status
  }

  lemma MicroOverKept(env: Env, s: State)
    requires ValidEnv(env) && WellFormed(s.w) && ThreadOk(s)
    ensures OverKept(s.w, Micro(env, s).w)
  {
    hide LogComplete;
    if s.control.Deferring? || s.control.Closing? {
      hide StepOk;
    } else {
      hide Micro;
      MicroOk(env, s);
      assert AllActive(s.w, Txs(s.kont));
    }
  }

  lemma KeptDiscarded(w: World, w': World, own: seq<TxId>)
    requires OverKept(w, w')
    ensures AllDiscarded(w, own) ==> AllDiscarded(w', own)
    ensures forall err :: OnlyWinnerCommitted(w, own, err) ==> OnlyWinnerCommitted(w', own, err)
  {
  }

  lemma FromBefore(env: Env, c: CallAt, s: State, own: seq<TxId>)
    requires ValidEnv(env) && WellFormed(s.w) && BeforeAttempt(env, c, s, own)
    requires OverKept(s.w, Micro(env, s).w)
    ensures Tracked(env, c, Micro(env, s), own + BegunBy(c, s, Micro(env, s)))
  {
    hide OverKept, WellFormed;
    var s' := Micro(env, s);
    KeptDiscarded(s.w, s'.w, own);
    if s.control.Attempting? {
      FromAttempting(env, c, s, own);
    } else {
      assert own + BegunBy(c, s, s') == own;
    }
  }

  lemma FromAttempting(env: Env, c: CallAt, s: State, own: seq<TxId>)
    requires ValidEnv(env) && WellFormed(s.w) && BeforeAttempt(env, c, s, own) && s.control.Attempting?
    requires AllDiscarded(Micro(env, s).w, own)
    ensures Tracked(env, c, Micro(env, s), own + BegunBy(c, s, Micro(env, s)))
  {
    hide WellFormed, AllDiscarded, Tracked;
    var s' := Micro(env, s);
    if c.call.TxCall? && env.begin(Now(s.w)).Some? {
      assert s.kont.InTx? ==> Depth(s.kont.rest) < Depth(s.kont);
      assert own + BegunBy(c, s, s') == own;
      NotBegun(env, c, s, s', own);
    } else {
      Begun(env, c, s, s', own);
    }
  }

  lemma NotBegun(env: Env, c: CallAt, s: State, s': State, own: seq<TxId>)
    requires BeforeAttempt(env, c, s, own) && s.control.Attempting? && AllDiscarded(s'.w, own)
    requires s'.control.Ended? && s'.control.err.Some? && s'.kont == s.kont
    ensures Tracked(env, c, s', own)
  {
    hide InAttempt;
  }

  lemma Begun(env: Env, c: CallAt, s: State, s': State, own: seq<TxId>)
    requires BeforeAttempt(env, c, s, own) && s.control.Attempting? && AllDiscarded(s'.w, own)
    requires InJob(s'.kont) && s'.kont.rest == s.kont && (s'.kont.InTx? <==> c.call.TxCall?)
    ensures Tracked(env, c, s', own + BegunBy(c, s, s'))
  {
    hide AllDiscarded;
    var own' := own + BegunBy(c, s, s');
    assert s'.kont.InTx? ==> own'[..|own'| - 1] == own;
    assert InAttempt(env, c, s', own', s'.kont);
  }

  lemma FromAttempt(env: Env, c: CallAt, s: State, own: seq<TxId>, run: Kont)
    requires ValidEnv(env) && WellFormed(s.w) && ThreadOk(s) && InAttempt(env, c, s, own, run)
    requires OverKept(s.w, Micro(env, s).w)
    ensures Tracked(env, c, Micro(env, s), own + BegunBy(c, s, Micro(env, s)))
  {
    hide WellFormed, OverKept;
    var s' := Micro(env, s);
    InAttemptIsAbove(env, c, s, own, run);
    assert own + BegunBy(c, s, s') == own;
    if run.InTx? {
      KeptDiscarded(s.w, s'.w, own[..|own| - 1]);
    }
    if s.kont == run && s.control.Closing? {
      AttemptCloses(env, c, s, own);
    } else {
      RunGoesOn(env, s, run);
      assert InAttempt(env, c, s', own, run);
    }
  }

  /** Until it closes its channel, a run stays on the stack. */
  lemma RunGoesOn(env: Env, s: State, run: Kont)
    requires ValidEnv(env) && WellFormed(s.w) && ThreadOk(s) && Within(s.kont, run) && InJob(run)
    requires s.kont != run || !s.control.Closing?
    ensures Within(Micro(env, s).kont, run)
  {
    if s.control.Attempting? {
      hide ThreadOk, WellFormed;
    } else {
      hide WellFormed, LogComplete, AllActive, AllOpen;
      MicroFrames(env, s);
      if s.kont == run {
        RunStays(env, s);
      }
    }
  }

  lemma RunStays(env: Env, s: State)
    requires ValidEnv(env) && WellFormed(s.w) && ThreadOk(s) && InJob(s.kont) && !s.control.Closing?
    ensures var k := Micro(env, s).kont; k == s.kont || (k.Resume? && k.rest == s.kont)
  {
    hide WellFormed, AllActive, AllOpen, Act, Grows;
  }

  lemma AttemptCloses(env: Env, c: CallAt, s: State, own: seq<TxId>)
    requires ValidEnv(env) && WellFormed(s.w) && ThreadOk(s) && InAttempt(env, c, s, own, s.kont)
    requires s.control.Closing?
    ensures AfterAttempt(env, c, Micro(env, s), own)
  {
    hide WellFormed, WellBuilt, AllActive;
    assert AllOpen(s.w, Chans(s.kont)) && s.kont.ch in Chans(s.kont);
  }

  lemma FromAfter(env: Env, c: CallAt, s: State, own: seq<TxId>)
    requires ValidEnv(env) && WellFormed(s.w) && AfterAttempt(env, c, s, own) && !Returned(c, s)
    requires OverKept(s.w, Micro(env, s).w)
    ensures Tracked(env, c, Micro(env, s), own + BegunBy(c, s, Micro(env, s)))
  {
    hide WellFormed, OverKept, NeedRetry, Delay;
    var s' := Micro(env, s);
    assert own + BegunBy(c, s, s') == own;
    KeptDiscarded(s.w, s'.w, own);
    assert s.control.err.Some? ==> AllDiscarded(s'.w, own);
    if s'.control.Trying? {
      assert BeforeAttempt(env, c, s', own);
    } else {
      assert AfterCall(env, c, s', own);
    }
  }

  lemma TrackedStep(env: Env, c: CallAt, s: State, own: seq<TxId>)
    requires ValidEnv(env) && WellFormed(s.w) && ThreadOk(s) && Tracked(env, c, s, own)
    requires Returned(c, s) ==> c.k.Finished?
    ensures Tracked(env, c, Micro(env, s), own + BegunBy(c, s, Micro(env, s)))
  {
    hide Micro, ThreadOk, BeforeAttempt, AfterAttempt, EndedWell, InAttempt;
    MicroOverKept(env, s);
    if Returned(c, s) {
      FinishedStep(env, s);
      assert own + BegunBy(c, s, s) == own;
    } else if BeforeAttempt(env, c, s, own) {
      FromBefore(env, c, s, own);
    } else if run :| InAttempt(env, c, s, own, run) {
      FromAttempt(env, c, s, own, run);
    } else {
      FromAfter(env, c, s, own);
    }
  }

  /** A step of another thread. */
  lemma TrackedAnyway(env: Env, c: CallAt, s: State, own: seq<TxId>, w': World)
    requires Tracked(env, c, s, own) && OverKept(s.w, w')
    ensures Tracked(env, c, s.(w := w'), own)
  {
    hide OverKept, AtRound, OnlyWinnerCommitted, AllDiscarded;
    var s' := s.(w := w');
    KeptDiscarded(s.w, w', own);
    if run :| InAttempt(env, c, s, own, run) {
      if own != [] {
        KeptDiscarded(s.w, w', own[..|own| - 1]);
      }
      assert InAttempt(env, c, s', own, run);
    }
  }

  // ----- Whole schedules -----

  /** The thread has not gone on from the call, unless there is nothing to go on to. */
  ghost predicate NotGoneOn(m: System, sched: seq<nat>, i: nat, c: CallAt)
    requires ValidSystem(m) && ValidSchedule(sched, |m.threads|) && i < |m.threads|
  {
    c.k.Finished? || forall n :: 0 <= n < |sched| ==> !Returned(c, View(RunSchedule(m, sched[..n]), i))
  }

  lemma {:induction false} SafeThroughout(m: System, sched: seq<nat>)
    requires ValidSystem(m) && Safe(m) && ValidSchedule(sched, |m.threads|)
    ensures Safe(RunSchedule(m, sched))
  {
    hide Safe, StepThread;
    if sched == [] {
    } else {
      SafeThroughout(m, sched[..|sched| - 1]);
      StepSafe(RunSchedule(m, sched[..|sched| - 1]), sched[|sched| - 1]);
    }
  }

  lemma NotGoneOnBefore(m: System, sched: seq<nat>, i: nat, c: CallAt)
    requires ValidSystem(m) && ValidSchedule(sched, |m.threads|) && i < |m.threads|
    requires NotGoneOn(m, sched, i, c) && sched != []
    ensures var before := sched[..|sched| - 1];
            && NotGoneOn(m, before, i, c)
            && (c.k.Finished? || !Returned(c, View(RunSchedule(m, before), i)))
  {
    hide RunSchedule, Returned;
    var before := sched[..|sched| - 1];
    forall n | 0 <= n < |before| ensures sched[..n] == before[..n] {
    }
    assert sched[..|before|] == before;
  }

  lemma {:induction false} CallTracked(m: System, sched: seq<nat>, i: nat, c: CallAt)
    requires ValidSystem(m) && Safe(m) && ValidSchedule(sched, |m.threads|) && i < |m.threads|
    requires Made(c, View(m, i)) && NotGoneOn(m, sched, i, c)
    ensures Tracked(m.threads[i].env, c, View(RunSchedule(m, sched), i), AttemptTxs(m, sched, i, c))
  {
    hide Safe, Micro, Tracked, ThreadOk, NotGoneOn, Returned, BegunBy, OverKept;
    var env := m.threads[i].env;
    if sched == [] {
      MadeTracked(env, c, View(m, i));
    } else {
      var before, j := sched[..|sched| - 1], sched[|sched| - 1];
      var m1 := RunSchedule(m, before);
      NotGoneOnBefore(m, sched, i, c);
      CallTracked(m, before, i, c);
      SafeThroughout(m, before);
      ScheduleKeepsEnvs(m, before, i);
      SafeThread(m1, i);
      SafeThread(m1, j);
      var s, own := View(m1, i), AttemptTxs(m, before, i, c);
      if j == i {
        TrackedLast(c, m1, i, own);
      } else {
        TrackedOther(c, m1, j, i, own);
        assert AttemptTxs(m, sched, i, c) == own;
      }
    }
  }

  lemma MadeTracked(env: Env, c: CallAt, s: State)
    requires Made(c, s)
    ensures Tracked(env, c, s, [])
  {
  }

  lemma TrackedLast(c: CallAt, m: System, i: nat, own: seq<TxId>)
    requires ValidSystem(m) && i < |m.threads| && ThreadOk(View(m, i))
    requires Tracked(m.threads[i].env, c, View(m, i), own)
    requires c.k.Finished? || !Returned(c, View(m, i))
    ensures Tracked(m.threads[i].env, c, View(StepThread(m, i), i),
                    own + BegunBy(c, View(m, i), View(StepThread(m, i), i)))
  {
    hide Micro, Tracked, ThreadOk, BegunBy;
    TrackedStep(m.threads[i].env, c, View(m, i), own);
    assert View(StepThread(m, i), i) == Micro(m.threads[i].env, View(m, i));
  }

  lemma TrackedOther(c: CallAt, m: System, j: nat, i: nat, own: seq<TxId>)
    requires ValidSystem(m) && i < |m.threads| && j < |m.threads| && j != i && ThreadOk(View(m, j))
    requires Tracked(m.threads[i].env, c, View(m, i), own)
    ensures Tracked(m.threads[i].env, c, View(StepThread(m, j), i), own)
  {
    hide Micro, Tracked, ThreadOk;
    var s, s' := View(m, i), View(StepThread(m, j), i);
    MicroOverKept(m.threads[j].env, View(m, j));
    assert OverKept(s.w, s'.w);
    TrackedAnyway(m.threads[i].env, c, s, own, s'.w);
  }

  lemma TrackedReturn(env: Env, c: CallAt, s: State, own: seq<TxId>)
    requires Tracked(env, c, s, own) && Returned(c, s)
    ensures AfterCall(env, c, s, own)
  {
    hide EndedWell, AllDiscarded;
    if run :| InAttempt(env, c, s, own, run) {
      InAttemptIsAbove(env, c, s, own, run);
    } else if AfterAttempt(env, c, s, own) {
      RoundDepth(env, c, s.kont);
    }
  }

  lemma TrackedMeansAtMostLast(env: Env, c: CallAt, s: State, own: seq<TxId>)
    requires Tracked(env, c, s, own)
    ensures forall j :: 0 <= j < |own| - 1 ==> HasStatus(s.w, own[j], Discarded)
  {
    hide Within;
    if run :| InAttempt(env, c, s, own, run) {
      forall j | 0 <= j < |own| - 1 ensures HasStatus(s.w, own[j], Discarded) {
        assert own[..|own| - 1][j] == own[j];
      }
    }
  }

  /** What the database holds of the attempts' transactions: all of the winner's writes, nothing of the others'. */
  ghost predicate OnlyWinnerWritten(w: World, own: seq<TxId>, err: Option<Error>) {
    forall j :: 0 <= j < |own| ==>
      && own[j] < |w.txs|
      && Only(w.primary, own[j]) == if err.None? && j == |own| - 1 then w.txs[own[j]].buffer else []
  }

  lemma WinnerWritten(m: System, i: nat, own: seq<TxId>, err: Option<Error>)
    requires Safe(m) && i < |m.threads| && OnlyWinnerCommitted(View(m, i).w, own, err)
    ensures OnlyWinnerWritten(View(m, i).w, own, err)
  {
    hide ThreadOk, Only, OpenExactlyInRuns, UnendedOnlyInRuns;
    var w := View(m, i).w;
    forall j | 0 <= j < |own|
      ensures own[j] < |w.txs|
      ensures Only(w.primary, own[j]) == if err.None? && j == |own| - 1 then w.txs[own[j]].buffer else []
    {
      assert HasStatus(w, own[j], if err.None? && j == |own| - 1 then Committed else Discarded);
    }
  }

  /** From the moment any thread makes any call, nested or not, in any state that threads get into: until it
      returns, every transaction its attempts began but the last is discarded; when it returns, the last is
      committed if it returns nil and discarded too if it returns an error, there were at most as many as the
      retry budget, and the primary log holds all writes of the winner and none of the others. */
  lemma EveryCallIsAtomic(m: System, sched: seq<nat>, i: nat, c: CallAt)
    requires ValidSystem(m) && Safe(m) && ValidSchedule(sched, |m.threads|) && i < |m.threads|
    requires Made(c, View(m, i)) && NotGoneOn(m, sched, i, c)
    ensures var s, own := View(RunSchedule(m, sched), i), AttemptTxs(m, sched, i, c);
            && (forall j :: 0 <= j < |own| - 1 ==> HasStatus(s.w, own[j], Discarded))
            && (Returned(c, s) ==>
                  && |own| <= Budget(m.threads[i].env)
                  && EndedWell(s.w, c.call, own, s.control.err)
                  && OnlyWinnerWritten(s.w, own, s.control.err))
  {
    hide Safe, Tracked, NotGoneOn, RunSchedule, AttemptTxs, OnlyWinnerWritten, OnlyWinnerCommitted;
    CallTracked(m, sched, i, c);
    var env, s, own := m.threads[i].env, View(RunSchedule(m, sched), i), AttemptTxs(m, sched, i, c);
    TrackedMeansAtMostLast(env, c, s, own);
    if Returned(c, s) {
      TrackedReturn(env, c, s, own);
      SafeThroughout(m, sched);
      WinnerWritten(RunSchedule(m, sched), i, own, s.control.err);
    }
  }

  /** In particular every thread's own call, in every schedule from the start, once it is done. */
  lemma EveryThreadIsAtomic(envs: seq<Env>, calls: seq<Call>, sched: seq<nat>, i: nat)
    requires |envs| == |calls| && forall j :: 0 <= j < |envs| ==> ValidEnv(envs[j])
    requires ValidSchedule(sched, |envs|) && i < |envs|
    ensures var m := Start(envs, calls);
            var own := AttemptTxs(m, sched, i, CallAt(NO_LOCALS, calls[i], Finished));
            var s := View(RunSchedule(m, sched), i);
            Done(s) ==>
              && |own| <= Budget(envs[i])
              && EndedWell(s.w, calls[i], own, s.control.err)
              && OnlyWinnerWritten(s.w, own, s.control.err)
  {
    hide Safe, RunSchedule, AttemptTxs, OnlyWinnerWritten, EndedWell;
    StartSafe(envs, calls);
    EveryCallIsAtomic(Start(envs, calls), sched, i, CallAt(NO_LOCALS, calls[i], Finished));
  }
}
