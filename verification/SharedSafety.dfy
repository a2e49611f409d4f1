/** What holds at every moment of every interleaving, whatever the jobs do: they may use contexts and handles of
    other threads, keep them too long, or make them up. */
module SharedSafety {
  import opened Options
  import opened Errors
  import opened World
  import opened Interpreter
  import opened Machine
  import opened Interleaving
  import opened Effects
  import Retrier

  /** The channels and transactions of the runs a thread is in. */
  function Chans(k: Kont): set<ChanId> {
    match k
    case Finished => {}
    case Resume(_, _, rest) => Chans(rest)
    case InTx(_, ch, _, _, rest) => {ch} + Chans(rest)
    case InNoTx(ch, _, _, rest) => {ch} + Chans(rest)
    case Round(_, _, _, rest) => Chans(rest)
  }

  function Txs(k: Kont): set<TxId> {
    match k
    case Finished => {}
    case Resume(_, _, rest) => Txs(rest)
    case InTx(tx, _, _, _, rest) => {tx} + Txs(rest)
    case InNoTx(_, _, _, rest) => Txs(rest)
    case Round(_, _, _, rest) => Txs(rest)
  }

  predicate InJob(k: Kont) {
    k.InTx? || k.InNoTx?
  }

  /** No run occurs twice, jobs run in runs, and nested calls are made by jobs. */
  ghost predicate WellBuilt(k: Kont) {
    match k
    case Finished => true
    case Resume(_, _, rest) => WellBuilt(rest) && InJob(rest)
    case InTx(tx, ch, _, _, rest) => WellBuilt(rest) && !InJob(rest) && ch !in Chans(rest) && tx !in Txs(rest)
    case InNoTx(ch, _, _, rest) => WellBuilt(rest) && !InJob(rest) && ch !in Chans(rest)
    case Round(_, _, _, rest) => WellBuilt(rest) && !InJob(rest)
  }

  ghost predicate AllOpen(w: World, chs: set<ChanId>) {
    forall ch :: ch in chs ==> ch < |w.chans| && w.chans[ch]
  }

  ghost predicate AllActive(w: World, ts: set<TxId>) {
    forall t :: t in ts ==> t < |w.txs| && w.txs[t].status == Active
  }

  ghost predicate HasStatus(w: World, t: TxId, status: TxStatus) {
    t < |w.txs| && w.txs[t].status == status
  }

  /** A thread's runs are all alive, but for the one it is just finishing; that one's transaction is committed
      exactly when the run is going to return no error. */
  ghost predicate ThreadOk(s: State) {
    && WellBuilt(s.kont)
    && AllOpen(s.w, Chans(s.kont))
    && match s.control
       case Executing(_, _) => AllActive(s.w, Txs(s.kont)) && InJob(s.kont)
       case JobEnded(_) => AllActive(s.w, Txs(s.kont)) && InJob(s.kont)
       case Deferring(res, err) =>
         && s.kont.InTx? && AllActive(s.w, Txs(s.kont.rest))
         && (if err.None? then HasStatus(s.w, s.kont.tx, Committed)
             else HasStatus(s.w, s.kont.tx, Active) || HasStatus(s.w, s.kont.tx, CommitFailed))
       case Closing(res, err) =>
         && InJob(s.kont) && AllActive(s.w, Txs(s.kont.rest))
         && (s.kont.InTx? ==> HasStatus(s.w, s.kont.tx, if err.None? then Committed else Discarded))
       case _ => AllActive(s.w, Txs(s.kont)) && !InJob(s.kont)
  }

  /** The primary log holds, of every transaction, all it was given if it is committed, and nothing otherwise. */
  ghost predicate LogComplete(w: World) {
    forall t: TxId :: Only(w.primary, t) ==
      if t < |w.txs| && w.txs[t].status == Committed then w.txs[t].buffer else []
  }

  /** What one step of a thread may do to what is not its own, and how its own runs come and go. */
  ghost predicate StepOk(s: State, s': State) {
    && |s.w.chans| <= |s'.w.chans| && |s.w.txs| <= |s'.w.txs|
    && (forall ch :: 0 <= ch < |s.w.chans| && ch !in Chans(s.kont) ==> s'.w.chans[ch] == s.w.chans[ch])
    && (forall t :: 0 <= t < |s.w.txs| && t !in Txs(s.kont) ==> s'.w.txs[t].status == s.w.txs[t].status)
    && (forall ch :: ch in Chans(s'.kont) ==> ch in Chans(s.kont) || ch >= |s.w.chans|)
    && (forall t :: t in Txs(s'.kont) ==> t in Txs(s.kont) || t >= |s.w.txs|)
    && (forall ch :: ch in Chans(s.kont) && ch !in Chans(s'.kont) && ch < |s'.w.chans| ==> !s'.w.chans[ch])
    && (forall ch :: |s.w.chans| <= ch < |s'.w.chans| ==> ch in Chans(s'.kont))
    && (forall t :: t in Txs(s.kont) && t !in Txs(s'.kont) && t < |s'.w.txs| ==> Over(s'.w.txs[t]))
    && (forall t :: |s.w.txs| <= t < |s'.w.txs| ==> t in Txs(s'.kont))
    && (LogComplete(s.w) ==> LogComplete(s'.w))
  }

  lemma WriteLogComplete(env: Env, w: World, db: DB, v: int)
    requires LogComplete(w)
    ensures LogComplete(ProviderWrite(env, w, db, v).0)
  {
    hide Only;
  }

  lemma ActOk(env: Env, w: World, l: Locals, job: Job)
    requires WellFormed(w) && !job.Run?
    ensures var w' := Act(env, w, l, job).0;
            && w'.chans == w.chans && |w'.txs| == |w.txs| && w'.primary == w.primary
            && (forall t :: 0 <= t < |w.txs| ==> w'.txs[t].status == w.txs[t].status)
            && (LogComplete(w) ==> LogComplete(w'))
  {
    hide Grows, Only;
    var db := if job.Write? then HandleOf(env, w, l, job.db) else None;
    if db.Some? && LogComplete(w) {
      WriteLogComplete(env, w, db.value, job.v);
    }
  }

  lemma CommitLogComplete(env: Env, w: World, t: TxId)
    requires HasStatus(w, t, Active) && LogComplete(w)
    ensures LogComplete(Commit(env, w, t))
  {
    hide Only;
    var w' := Commit(env, w, t);
    if env.commit(Now(w)).CommitDone? {
      var added := Tagged(t, w.txs[t].buffer);
      forall u: TxId ensures Only(w'.primary, u) == Only(w.primary, u) + Only(added, u) {
        OnlyAppend(w.primary, added, u);
      }
      forall u: TxId ensures Only(added, u) == if u == t then w.txs[t].buffer else [] {
        OnlyTagged(t, w.txs[t].buffer, u);
      }
      assert Only(w.primary, t) == [];
      forall u: TxId ensures Only(w'.primary, u) ==
          if u < |w'.txs| && w'.txs[u].status == Committed then w'.txs[u].buffer else [] {
        assert Only(w'.primary, u) == Only(w.primary, u) + Only(added, u);
        if u != t {
          assert Only(added, u) == [];
        }
      }
    }
  }

  lemma ExecStepOk(env: Env, s: State)
    requires ValidEnv(env) && WellFormed(s.w) && ThreadOk(s) && s.control.Executing?
    ensures ThreadOk(Micro(env, s)) && StepOk(s, Micro(env, s))
  {
    hide Act, LogComplete;
    if !s.control.job.Run? {
      ActOk(env, s.w, s.control.locals, s.control.job);
    }
  }

  lemma OpenLogComplete(w: World, opts: TxOpts, e: Event, raw: RawCtx, db: Option<DB>, fallbackDB: Option<DB>)
    requires LogComplete(w)
    ensures LogComplete(Begin(w, opts))
    ensures LogComplete(Log(w, e))
    ensures LogComplete(NewContext(w, raw, db, fallbackDB))
  {
    hide Only;
  }

  lemma BeginFailsStepOk(env: Env, s: State)
    requires ValidEnv(env) && WellFormed(s.w) && ThreadOk(s) && s.control.Attempting?
    requires s.control.call.TxCall? && env.begin(Now(s.w)).Some?
    ensures ThreadOk(Micro(env, s)) && StepOk(s, Micro(env, s))
  {
    hide LogComplete;
    var opts := s.control.call.txOpts.(ctx := Some(CallCtx(s.control.call)));
    LogOnlyStateful(s.w, Log(s.w, BeginErr(opts, env.begin(Now(s.w)).value)));
  }

  /** What making a run does to the world: one more open channel and perhaps one more active transaction. */
  ghost predicate OpensRun(w: World, w': World, txs: seq<Tx>) {
    && w'.chans == w.chans + [true]
    && w'.txs == w.txs + txs
    && (LogComplete(w) ==> LogComplete(w'))
  }

  lemma OpenTxOpens(env: Env, w: World, opts: TxOpts, raw: RawCtx)
    ensures OpensRun(w, OpenTx(env, w, opts, raw), [Tx(Active, [])])
  {
    hide LogComplete;
    if LogComplete(w) {
      var db, fallbackDB := Some(TxHandle(|w.txs|)), FallbackDB(env, raw, opts.ext, Now(w) + 1);
      OpenLogComplete(w, opts, Closed(0), raw, db, fallbackDB);
      OpenLogComplete(Begin(w, opts), opts, Closed(0), raw, db, fallbackDB);
    }
  }

  lemma NewContextOpens(w: World, raw: RawCtx, db: Option<DB>)
    ensures OpensRun(w, NewContext(w, raw, db, None), [])
  {
    hide LogComplete;
    if LogComplete(w) {
      OpenLogComplete(w, TxOpts(None, 0, false, None), Closed(0), raw, db, None);
    }
  }

  /** A thread that gets into a new run. */
  lemma RunAdded(s: State, s': State)
    requires ThreadOk(s) && s.control.Attempting? && s'.control.Executing? && InJob(s'.kont)
    requires s'.kont.rest == s.kont && s'.kont.ch == |s.w.chans|
    requires s'.kont.InTx? ==> s'.kont.tx == |s.w.txs|
    requires OpensRun(s.w, s'.w, if s'.kont.InTx? then [Tx(Active, [])] else [])
    ensures ThreadOk(s') && StepOk(s, s')
  {
    hide LogComplete;
  }

  lemma BeginStepOk(env: Env, s: State)
    requires ValidEnv(env) && WellFormed(s.w) && ThreadOk(s) && s.control.Attempting?
    requires s.control.call.TxCall? && env.begin(Now(s.w)).None?
    ensures ThreadOk(Micro(env, s)) && StepOk(s, Micro(env, s))
  {
    hide LogComplete, OpenTx;
    var call := s.control.call;
    OpenTxOpens(env, s.w, call.txOpts.(ctx := Some(CallCtx(call))), CallCtx(call));
    RunAdded(s, Micro(env, s));
  }

  lemma NoTxStepOk(env: Env, s: State)
    requires ValidEnv(env) && WellFormed(s.w) && ThreadOk(s) && s.control.Attempting?
    requires s.control.call.NoTxCall?
    ensures ThreadOk(Micro(env, s)) && StepOk(s, Micro(env, s))
  {
    hide LogComplete, NewContext;
    var call := s.control.call;
    NewContextOpens(s.w, CallCtx(call), ProviderDB(env, call.noTxOpts.(ctx := Some(CallCtx(call))), Now(s.w)));
    RunAdded(s, Micro(env, s));
  }

  lemma JobEndStepOk(env: Env, s: State)
    requires ValidEnv(env) && WellFormed(s.w) && ThreadOk(s) && s.control.JobEnded?
    ensures ThreadOk(Micro(env, s)) && StepOk(s, Micro(env, s))
  {
    hide LogComplete;
    if s.kont.InTx? && LogComplete(s.w) {
      CommitLogComplete(env, s.w, s.kont.tx);
    }
  }

  lemma FinishStepOk(env: Env, s: State)
    requires ValidEnv(env) && WellFormed(s.w) && ThreadOk(s) && (s.control.Deferring? || s.control.Closing?)
    ensures ThreadOk(Micro(env, s)) && StepOk(s, Micro(env, s))
  {
    hide Only;
  }

  lemma OtherStepOk(env: Env, s: State)
    requires ValidEnv(env) && WellFormed(s.w) && ThreadOk(s)
    requires s.control.Calling? || s.control.Trying? || s.control.Ended?
    ensures ThreadOk(Micro(env, s)) && StepOk(s, Micro(env, s))
  {
    hide Only, NeedRetry, Retrier.CalcDelay;
  }

  lemma MicroOk(env: Env, s: State)
    requires ValidEnv(env) && WellFormed(s.w) && ThreadOk(s)
    ensures ThreadOk(Micro(env, s)) && StepOk(s, Micro(env, s))
  {
    hide Micro, StepOk, ThreadOk;
    match s.control
    case Executing(_, _) => ExecStepOk(env, s);
    case Attempting(_, call) =>
      if call.NoTxCall? {
        NoTxStepOk(env, s);
      } else if env.begin(Now(s.w)).Some? {
        BeginFailsStepOk(env, s);
      } else {
        BeginStepOk(env, s);
      }
    case JobEnded(_) => JobEndStepOk(env, s);
    case Deferring(_, _) => FinishStepOk(env, s);
    case Closing(_, _) => FinishStepOk(env, s);
    case _ => OtherStepOk(env, s);
  }

  // ----- The system -----

  ghost predicate Apart(k: Kont, k': Kont) {
    Chans(k) !! Chans(k') && Txs(k) !! Txs(k')
  }

  /** A channel is open exactly while some thread is in the run it belongs to. */
  ghost predicate OpenExactlyInRuns(m: System) {
    forall ch: ChanId :: ch < |m.shared.chans| ==>
      (m.shared.chans[ch] <==> exists i :: 0 <= i < |m.threads| && ch in Chans(m.threads[i].kont))
  }

  /** Every transaction is over or that of a run some thread is in. */
  ghost predicate UnendedOnlyInRuns(m: System) {
    forall t: TxId :: t < |m.shared.txs| ==>
      Over(m.shared.txs[t]) || exists i :: 0 <= i < |m.threads| && t in Txs(m.threads[i].kont)
  }

  ghost predicate Safe(m: System) {
    && (forall i :: 0 <= i < |m.threads| ==> ThreadOk(View(m, i)))
    && (forall i, j :: 0 <= i < |m.threads| && 0 <= j < |m.threads| && i != j ==>
          Apart(m.threads[i].kont, m.threads[j].kont))
    && OpenExactlyInRuns(m)
    && UnendedOnlyInRuns(m)
    && LogComplete(m.shared)
  }

  /** Threads that did not step keep their runs, and stay apart from the one that did. */
  lemma OtherThreadOk(t: State, s: State, s': State)
    requires ThreadOk(t) && t.w.(trace := []) == s.w.(trace := [])
    requires Apart(t.kont, s.kont) && StepOk(s, s')
    ensures ThreadOk(t.(w := s'.w.(trace := t.w.trace)))
    ensures Apart(t.kont, s'.kont)
  {
    hide LogComplete;
    var t' := t.(w := s'.w.(trace := t.w.trace));
    assert AllOpen(t'.w, Chans(t.kont));
    forall u | u in Txs(t.kont) ensures u !in Txs(s.kont) {
    }
    forall u: TxId, x: TxStatus | HasStatus(t.w, u, x) && u in Txs(t.kont) ensures HasStatus(t'.w, u, x) {
    }
    assert Chans(t.kont) !! Chans(s'.kont);
    TxsKnown(t);
    assert Txs(t.kont) !! Txs(s'.kont);
  }

  lemma TxsKnown(t: State)
    requires ThreadOk(t)
    ensures forall u :: u in Txs(t.kont) ==> u < |t.w.txs|
  {
  }

  lemma StepSafe(m: System, i: nat)
    requires ValidSystem(m) && Safe(m) && i < |m.threads|
    ensures Safe(StepThread(m, i))
  {
    hide Micro, ThreadOk, LogComplete;
    var m' := StepThread(m, i);
    var env, s := m.threads[i].env, View(m, i);
    var s' := Micro(env, s);
    assert ThreadOk(s);
    MicroOk(env, s);
    assert View(m', i) == s';
    forall j | 0 <= j < |m.threads| && j != i
      ensures ThreadOk(View(m', j)) && Apart(m'.threads[j].kont, m'.threads[i].kont)
    {
      assert Apart(m.threads[j].kont, m.threads[i].kont);
      OtherThreadOk(View(m, j), s, s');
      assert View(m', j) == View(m, j).(w := s'.w.(trace := View(m, j).w.trace));
    }
    OkMeansOpen(s');
    StepOpenExactly(m, i);
    StepUnended(m, i);
    LogOnlyStateful(m.shared, s.w);
    LogOnlyStateful(s'.w, m'.shared);
  }

  lemma OkMeansOpen(s: State)
    requires ThreadOk(s)
    ensures AllOpen(s.w, Chans(s.kont))
  {
  }

  lemma LogOnlyStateful(w: World, w': World)
    requires w.(trace := []) == w'.(trace := [])
    ensures LogComplete(w) <==> LogComplete(w')
  {
    hide Only;
  }

  lemma StepOpenExactly(m: System, i: nat)
    requires ValidSystem(m) && i < |m.threads|
    requires OpenExactlyInRuns(m)
    requires StepOk(View(m, i), Micro(m.threads[i].env, View(m, i)))
    requires AllOpen(Micro(m.threads[i].env, View(m, i)).w, Chans(Micro(m.threads[i].env, View(m, i)).kont))
    requires forall j :: 0 <= j < |m.threads| && j != i ==> Apart(m.threads[j].kont, m.threads[i].kont)
    ensures OpenExactlyInRuns(StepThread(m, i))
  {
    hide Micro, LogComplete;
    var m' := StepThread(m, i);
    var s, s' := View(m, i), Micro(m.threads[i].env, View(m, i));
    forall ch: ChanId | ch < |m'.shared.chans|
      ensures m'.shared.chans[ch] <==> exists j :: 0 <= j < |m'.threads| && ch in Chans(m'.threads[j].kont)
    {
      if ch in Chans(s'.kont) {
        assert ch in Chans(m'.threads[i].kont);
      } else if ch < |m.shared.chans| {
        if j :| 0 <= j < |m.threads| && j != i && ch in Chans(m.threads[j].kont) {
          assert ch in Chans(m'.threads[j].kont) && Apart(m.threads[j].kont, m.threads[i].kont);
          assert m'.shared.chans[ch] == m.shared.chans[ch];
        }
      }
    }
  }

  lemma StepUnended(m: System, i: nat)
    requires ValidSystem(m) && i < |m.threads|
    requires UnendedOnlyInRuns(m)
    requires StepOk(View(m, i), Micro(m.threads[i].env, View(m, i)))
    requires forall j :: 0 <= j < |m.threads| && j != i ==> Apart(m.threads[j].kont, m.threads[i].kont)
    ensures UnendedOnlyInRuns(StepThread(m, i))
  {
    hide Micro, LogComplete;
    var m' := StepThread(m, i);
    var s, s' := View(m, i), Micro(m.threads[i].env, View(m, i));
    forall t: TxId | t < |m'.shared.txs|
      ensures Over(m'.shared.txs[t]) || exists j :: 0 <= j < |m'.threads| && t in Txs(m'.threads[j].kont)
    {
      if t in Txs(s'.kont) {
        assert t in Txs(m'.threads[i].kont);
      } else if t < |m.shared.txs| && t !in Txs(s.kont) {
        assert m'.shared.txs[t].status == m.shared.txs[t].status;
        if j :| 0 <= j < |m.threads| && j != i && t in Txs(m.threads[j].kont) {
          assert t in Txs(m'.threads[j].kont);
        }
      }
    }
  }

  lemma StartSafe(envs: seq<Env>, calls: seq<Call>)
    requires |envs| == |calls|
    ensures Safe(Start(envs, calls))
  {
  }

  /** Safety of every interleaving of any calls: all the above, at every reachable moment. */
  lemma {:induction false} EveryMomentSafe(envs: seq<Env>, calls: seq<Call>, sched: seq<nat>)
    requires |envs| == |calls| && forall i :: 0 <= i < |envs| ==> ValidEnv(envs[i])
    requires ValidSchedule(sched, |envs|)
    ensures Safe(RunSchedule(Start(envs, calls), sched))
  {
    hide Safe, StepThread;
    if sched == [] {
      StartSafe(envs, calls);
    } else {
      var before := sched[..|sched| - 1];
      EveryMomentSafe(envs, calls, before);
      StepSafe(RunSchedule(Start(envs, calls), before), sched[|sched| - 1]);
    }
  }

  /** A context, whoever asks and however it came by it, yields a DB only while some thread is in the run that
      made the context, and refuses at all other times. */
  lemma ContextLifetime(envs: seq<Env>, calls: seq<Call>, sched: seq<nat>, i: nat, l: Locals, job: Job, c: CtxId)
    requires |envs| == |calls| && forall j :: 0 <= j < |envs| ==> ValidEnv(envs[j])
    requires ValidSchedule(sched, |envs|) && i < |envs| && job.GetDB?
    requires var m := RunSchedule(Start(envs, calls), sched);
             && c < |m.shared.ctxs|
             && CtxOf(envs[i], View(m, i).w, l, job.ctx) == Some(c)
             && m.shared.ctxs[c].db.Some?
    ensures var m := RunSchedule(Start(envs, calls), sched);
            var p := Act(envs[i], View(m, i).w, l, job).1;
            && (p.GoesOn? <==> exists j :: 0 <= j < |m.threads| && m.shared.ctxs[c].ch in Chans(m.threads[j].kont))
            && (p.Stops? <==> p == Stops(Panicked(PanicError(INVALID_CONTEXT))))
  {
    hide RunSchedule, ThreadOk, LogComplete;
    EveryMomentSafe(envs, calls, sched);
  }

  /** No interleaving gets a thread to commit, roll back or close what is not there to be: a thread that is about
      to commit has an active transaction, and one that is about to close an open channel. */
  lemma NothingDoneTwice(envs: seq<Env>, calls: seq<Call>, sched: seq<nat>, i: nat)
    requires |envs| == |calls| && forall j :: 0 <= j < |envs| ==> ValidEnv(envs[j])
    requires ValidSchedule(sched, |envs|) && i < |envs|
    ensures var s := View(RunSchedule(Start(envs, calls), sched), i);
            && (s.control.JobEnded? && s.kont.InTx? ==> HasStatus(s.w, s.kont.tx, Active))
            && (s.control.Deferring? && s.control.err.Some? ==>
                  s.kont.InTx? && (HasStatus(s.w, s.kont.tx, Active) || HasStatus(s.w, s.kont.tx, CommitFailed)))
            && (s.control.Closing? ==>
                  && (s.kont.InTx? || s.kont.InNoTx?)
                  && s.kont.ch < |s.w.chans| && s.w.chans[s.kont.ch]
                  && (s.kont.InTx? ==> (HasStatus(s.w, s.kont.tx, Committed) <==> s.control.err.None?)))
  {
    hide RunSchedule, LogComplete;
    EveryMomentSafe(envs, calls, sched);
    assert ThreadOk(View(RunSchedule(Start(envs, calls), sched), i));
  }
}
