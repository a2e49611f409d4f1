/** Which DB a context yields, at every moment of every interleaving, whatever the jobs do: the handle of the run that
    made it, or that run's fallback DB, however many threads pass the context around. */
module SharedRouting {
  import opened Options
  import opened Errors
  import opened World
  import opened Interpreter
  import opened Machine
  import opened Interleaving
  import opened SharedSafety
  import Protocol

  /** The caller's context of a run. */
  function CallerOf(run: Kont): RawCtx
    requires InJob(run)
  {
    match (if run.InTx? then run.txOpts.ctx else run.noTxOpts.ctx)
    case None => Background
    case Some(raw) => raw
  }

  /** The context a run makes for its job. */
  function RootCtx(env: Env, run: Kont): Ctx
    requires InJob(run)
  {
    if run.InTx? then
      var raw := CallerOf(run);
      Ctx(raw, Some(TxHandle(run.tx)), Protocol.PromisedFallback(env, raw, run.txOpts.ext, run.time), run.ch)
    else
      Ctx(CallerOf(run), ProviderDB(env, run.noTxOpts, run.time), None, run.ch)
  }

  /** The run is one of those on the stack. */
  predicate Within(k: Kont, run: Kont) {
    k == run ||
    match k
    case Finished => false
    case Resume(_, _, rest) => Within(rest, run)
    case InTx(_, _, _, _, rest) => Within(rest, run)
    case InNoTx(_, _, _, rest) => Within(rest, run)
    case Round(_, _, _, rest) => Within(rest, run)
  }

  /** On the run's channel there are its own context, and contexts derived from that one. */
  ghost predicate RunRouted(env: Env, ctxs: seq<Ctx>, run: Kont)
    requires InJob(run)
  {
    exists root :: 0 <= root < |ctxs| && RootedAt(ctxs, RootCtx(env, run), root)
  }

  ghost predicate RootedAt(ctxs: seq<Ctx>, made: Ctx, root: CtxId)
    requires root < |ctxs|
  {
    && ctxs[root] == made
    && forall c :: 0 <= c < |ctxs| && c != root && ctxs[c].ch == made.ch ==> ctxs[c] == NoTxContext(made)
  }

  ghost predicate KontRouted(env: Env, ctxs: seq<Ctx>, k: Kont) {
    match k
    case Finished => true
    case Resume(_, _, rest) => KontRouted(env, ctxs, rest)
    case InTx(_, _, _, _, rest) => RunRouted(env, ctxs, k) && KontRouted(env, ctxs, rest)
    case InNoTx(_, _, _, rest) => RunRouted(env, ctxs, k) && KontRouted(env, ctxs, rest)
    case Round(_, _, _, rest) => KontRouted(env, ctxs, rest)
  }

  /** What any step does to the contexts: it leaves them, or adds one that is derived or has a channel of its own. */
  ghost predicate ContextStep(w: World, w': World) {
    || w'.ctxs == w.ctxs
    || exists x :: w'.ctxs == w.ctxs + [x] && (x.ch >= |w.chans| || exists c :: DerivedFrom(w, x, c))
  }

  ghost predicate DerivedFrom(w: World, x: Ctx, c: CtxId) {
    c < |w.ctxs| && x == NoTxContext(w.ctxs[c])
  }

  lemma MicroContexts(env: Env, s: State)
    requires ValidEnv(env) && WellFormed(s.w)
    ensures ContextStep(s.w, Micro(env, s).w)
  {
    hide NeedRetry, Grows, ValidEnv, Delay;
    if s.control.Executing? && !s.control.job.Run? {
      ActContexts(env, s.w, s.control.locals, s.control.job);
    } else if s.control.Attempting? {
      AttemptContexts(env, s.w, s.control.locals, s.control.call, s.kont);
    }
  }

  lemma ActContexts(env: Env, w: World, l: Locals, job: Job)
    requires WellFormed(w) && !job.Run?
    ensures ContextStep(w, Act(env, w, l, job).0)
  {
    hide Grows, WellFormed;
    var c := if job.DeriveNoTx? then CtxOf(env, w, l, job.ctx) else None;
    if c.Some? {
      assert DerivedFrom(w, NoTxContext(w.ctxs[c.value]), c.value);
    }
  }

  lemma AttemptContexts(env: Env, w: World, l: Locals, call: Call, k: Kont)
    ensures ContextStep(w, AttemptStep(env, w, l, call, k).w)
  {
  }

  /** A step of anybody keeps a run routed. */
  lemma RunStaysRouted(env: Env, w: World, w': World, run: Kont)
    requires InJob(run) && run.ch < |w.chans| && RunRouted(env, w.ctxs, run) && ContextStep(w, w')
    ensures RunRouted(env, w'.ctxs, run)
  {
    var made := RootCtx(env, run);
    var root :| 0 <= root < |w.ctxs| && RootedAt(w.ctxs, made, root);
    assert RootedAt(w'.ctxs, made, root);
  }

  lemma {:induction false} StaysRouted(env: Env, w: World, w': World, k: Kont)
    requires AllOpen(w, Chans(k)) && KontRouted(env, w.ctxs, k) && ContextStep(w, w')
    ensures KontRouted(env, w'.ctxs, k)
  {
    hide RunRouted, ContextStep;
    if InJob(k) {
      assert k.ch in Chans(k);
      RunStaysRouted(env, w, w', k);
    }
    if k.Finished? {
    } else {
      StaysRouted(env, w, w', k.rest);
    }
  }

  /** A thread's own step: frames go, and a new one comes with the context it made. */
  lemma MicroRouted(env: Env, s: State)
    requires ValidEnv(env) && WellFormed(s.w) && AllOpen(s.w, Chans(s.kont)) && KontRouted(env, s.w.ctxs, s.kont)
    ensures KontRouted(env, Micro(env, s).w.ctxs, Micro(env, s).kont)
  {
    hide ContextStep, RunRouted, WellFormed, AllOpen, Chans;
    MicroContexts(env, s);
    StaysRouted(env, s.w, Micro(env, s).w, s.kont);
    if s.control.Attempting? {
      AttemptRouted(env, s);
    } else {
      MicroFrames(env, s);
      RoutedBelow(env, Micro(env, s).w.ctxs, s.kont);
    }
  }

  lemma RoutedBelow(env: Env, ctxs: seq<Ctx>, k: Kont)
    requires KontRouted(env, ctxs, k)
    ensures !k.Finished? ==> KontRouted(env, ctxs, k.rest)
    ensures forall l, job :: KontRouted(env, ctxs, Resume(l, job, k))
    ensures forall l, call, i :: KontRouted(env, ctxs, Round(l, call, i, k))
  {
  }

  lemma MicroFrames(env: Env, s: State)
    requires ValidEnv(env) && WellFormed(s.w) && !s.control.Attempting?
    ensures var k := Micro(env, s).kont;
            || k == s.kont
            || (k.Resume? && k.rest == s.kont)
            || (k.Round? && k.rest == s.kont)
            || (!s.kont.Finished? && k == s.kont.rest)
  {
    hide NeedRetry, ValidEnv, Delay, Act, Grows;
  }

  lemma AttemptRouted(env: Env, s: State)
    requires ValidEnv(env) && WellFormed(s.w) && s.control.Attempting?
    requires KontRouted(env, Micro(env, s).w.ctxs, s.kont)
    ensures KontRouted(env, Micro(env, s).w.ctxs, Micro(env, s).kont)
  {
    hide KontRouted, RunRouted;
    var s' := Micro(env, s);
    if s'.kont != s.kont {
      assert InJob(s'.kont) && s'.kont.rest == s.kont;
      NewRunRouted(env, s);
      RoutedPush(env, s'.w.ctxs, s'.kont);
    }
  }

  lemma RoutedPush(env: Env, ctxs: seq<Ctx>, k: Kont)
    requires InJob(k) && RunRouted(env, ctxs, k) && KontRouted(env, ctxs, k.rest)
    ensures KontRouted(env, ctxs, k)
  {
  }

  lemma NewRunRouted(env: Env, s: State)
    requires ValidEnv(env) && WellFormed(s.w) && s.control.Attempting? && Micro(env, s).kont != s.kont
    ensures InJob(Micro(env, s).kont) && RunRouted(env, Micro(env, s).w.ctxs, Micro(env, s).kont)
  {
    var s' := Micro(env, s);
    assert RootedAt(s'.w.ctxs, RootCtx(env, s'.kont), |s.w.ctxs|);
  }

  lemma SameContexts(w: World, u: World, u': World)
    requires w.ctxs == u.ctxs && w.chans == u.chans && ContextStep(u, u')
    ensures ContextStep(w, u')
  {
    if x :| u'.ctxs == u.ctxs + [x] && (x.ch >= |u.chans| || exists c :: DerivedFrom(u, x, c)) {
      if c :| DerivedFrom(u, x, c) {
        assert DerivedFrom(w, x, c);
      }
    }
  }

  /** The frame of a new run holds the options its call was made with, the missing context filled in. */
  lemma RunKeepsItsOptions(env: Env, w: World, l: Locals, call: Call, k: Kont)
    ensures var k' := AttemptStep(env, w, l, call, k).kont;
            match call
            case TxCall(o, _) =>
              var raw := match o.ctx case None => Background case Some(raw) => raw;
              k' == if env.begin(|w.trace|).Some? then k
                    else InTx(|w.txs|, |w.chans|, TxOpts(Some(raw), o.isolation, o.readOnly, o.ext), |w.trace| + 1, k)
            case NoTxCall(o, _) =>
              var raw := match o.ctx case None => Background case Some(raw) => raw;
              k' == InNoTx(|w.chans|, NoTxOpts(Some(raw), o.ext), |w.trace|, k)
  {
  }

  // ----- Whole schedules -----

  ghost predicate AllRouted(m: System) {
    forall i :: 0 <= i < |m.threads| ==> KontRouted(m.threads[i].env, m.shared.ctxs, m.threads[i].kont)
  }

  lemma StepRouted(m: System, i: nat)
    requires ValidSystem(m) && Safe(m) && AllRouted(m) && i < |m.threads|
    ensures AllRouted(StepThread(m, i))
  {
    hide Micro, KontRouted, ContextStep, LogComplete, ThreadOk;
    var env, s := m.threads[i].env, View(m, i);
    var m' := StepThread(m, i);
    MicroContexts(env, s);
    forall j | 0 <= j < |m'.threads| ensures KontRouted(m'.threads[j].env, m'.shared.ctxs, m'.threads[j].kont) {
      assert ThreadOk(View(m, j)) && KontRouted(m.threads[j].env, m.shared.ctxs, m.threads[j].kont);
      OkMeansOpen(View(m, j));
      if j == i {
        MicroRouted(env, s);
      } else {
        SameContexts(m.shared, s.w, Micro(env, s).w);
        StaysRouted(m.threads[j].env, s.w, Micro(env, s).w, m.threads[j].kont);
      }
    }
  }

  lemma StartRouted(envs: seq<Env>, calls: seq<Call>)
    requires |envs| == |calls|
    ensures AllRouted(Start(envs, calls))
  {
  }

  lemma {:induction false} EveryMomentRouted(envs: seq<Env>, calls: seq<Call>, sched: seq<nat>)
    requires |envs| == |calls| && forall i :: 0 <= i < |envs| ==> ValidEnv(envs[i])
    requires ValidSchedule(sched, |envs|)
    ensures AllRouted(RunSchedule(Start(envs, calls), sched))
  {
    hide Safe, StepThread, AllRouted;
    if sched == [] {
      StartRouted(envs, calls);
    } else {
      var before := sched[..|sched| - 1];
      EveryMomentRouted(envs, calls, before);
      EveryMomentSafe(envs, calls, before);
      StepRouted(RunSchedule(Start(envs, calls), before), sched[|sched| - 1]);
    }
  }

  lemma {:induction false} RunOfChannel(env: Env, ctxs: seq<Ctx>, k: Kont, ch: ChanId) returns (run: Kont)
    requires KontRouted(env, ctxs, k) && ch in Chans(k)
    ensures Within(k, run) && InJob(run) && run.ch == ch && RunRouted(env, ctxs, run)
  {
    hide RunRouted;
    if InJob(k) && k.ch == ch {
      run := k;
    } else {
      run := RunOfChannel(env, ctxs, k.rest, ch);
    }
  }

  /** Thread j is in the run, the run made context root, and c yields db because of that. If c is that context, db
      is the handle of the run's transaction, or, of a run without one, what the provider answered to its options.
      If c is derived from it, db is what the provider answered: with the dynamic setting to the run's options when
      the run made its context, without it to empty options when the manager was made. */
  ghost predicate YieldsBy(m: System, j: nat, run: Kont, root: CtxId, c: CtxId, db: DB) {
    && j < |m.threads| && Within(m.threads[j].kont, run) && InJob(run)
    && c < |m.shared.ctxs| && m.shared.ctxs[c].ch == run.ch
    && root < |m.shared.ctxs|
    && m.shared.ctxs[root].ch == run.ch && m.shared.ctxs[root].raw == CallerOf(run)
    && var env := m.threads[j].env;
       if c != root then
         && run.InTx? && db.Pool?
         && var asked := NoTxOpts(Some(CallerOf(run)), run.txOpts.ext);
            Some(db.id) == if env.dynamicFallbackDB then env.pool(asked, run.time)
                           else env.pool(NoTxOpts(None, None), 0)
       else if run.InTx? then db == TxHandle(run.tx)
       else db.Pool? && Some(db.id) == env.pool(run.noTxOpts, run.time)
  }

  /** Whoever asks whatever context at whatever moment of whatever schedule: if it yields a DB at all, some thread
      is in the run the context goes back to, and the DB is that run's own for the context the run made, and the
      run's fallback DB for every context derived from it. */
  lemma SharedContextRoutes(envs: seq<Env>, calls: seq<Call>, sched: seq<nat>, i: nat, l: Locals, job: Job)
    requires |envs| == |calls| && forall j :: 0 <= j < |envs| ==> ValidEnv(envs[j])
    requires ValidSchedule(sched, |envs|) && i < |envs| && job.GetDB?
    ensures var m := RunSchedule(Start(envs, calls), sched);
            var p := Act(envs[i], View(m, i).w, l, job).1;
            p.GoesOn? ==>
              && |p.locals.dbs| == |l.dbs| + 1
              && exists j: nat, run, root, c ::
                   && CtxOf(envs[i], View(m, i).w, l, job.ctx) == Some(c)
                   && YieldsBy(m, j, run, root, c, p.locals.dbs[|l.dbs|])
  {
    hide RunSchedule, ThreadOk, LogComplete, AllRouted, YieldsBy, Chans;
    var m := RunSchedule(Start(envs, calls), sched);
    var p := Act(envs[i], View(m, i).w, l, job).1;
    if p.GoesOn? {
      var c := CtxOf(envs[i], View(m, i).w, l, job.ctx).value;
      EveryMomentSafe(envs, calls, sched);
      EveryMomentRouted(envs, calls, sched);
      var j :| 0 <= j < |m.threads| && m.shared.ctxs[c].ch in Chans(m.threads[j].kont);
      var run, root := ContextRoutes(m, j, c);
      assert YieldsBy(m, j, run, root, c, p.locals.dbs[|l.dbs|]);
    }
  }

  /** From a context on the channel of one of thread j's runs back to that run and the context it made. */
  lemma ContextRoutes(m: System, j: nat, c: CtxId) returns (run: Kont, root: CtxId)
    requires AllRouted(m) && j < |m.threads| && c < |m.shared.ctxs| && m.shared.ctxs[c].db.Some?
    requires m.shared.ctxs[c].ch in Chans(m.threads[j].kont)
    ensures YieldsBy(m, j, run, root, c, m.shared.ctxs[c].db.value)
  {
    hide KontRouted, Within, RootCtx, Chans, CallerOf;
    var env := m.threads[j].env;
    run := RunOfChannel(env, m.shared.ctxs, m.threads[j].kont, m.shared.ctxs[c].ch);
    root :| 0 <= root < |m.shared.ctxs| && RootedAt(m.shared.ctxs, RootCtx(env, run), root);
    MadeForRun(env, run);
  }

  lemma MadeForRun(env: Env, run: Kont)
    requires InJob(run)
    ensures var made := RootCtx(env, run);
            && made.ch == run.ch && made.raw == CallerOf(run)
            && (run.InTx? ==>
                  && made.db == Some(TxHandle(run.tx))
                  && (made.fallbackDB.Some? ==>
                        && made.fallbackDB.value.Pool?
                        && var asked := NoTxOpts(Some(CallerOf(run)), run.txOpts.ext);
                           Some(made.fallbackDB.value.id) == if env.dynamicFallbackDB then env.pool(asked, run.time)
                                                             else env.pool(NoTxOpts(None, None), 0)))
            && (run.InNoTx? ==>
                  && made.fallbackDB.None?
                  && (made.db.Some? ==>
                        made.db.value.Pool? && Some(made.db.value.id) == env.pool(run.noTxOpts, run.time)))
  {
  }
}
