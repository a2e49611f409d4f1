/** The same manager one step at a time, so that runs can be interleaved: a step is one statement of a job or one
    call to the provider. What is left to do is on a stack of continuations. */
module Machine {
  import opened Options
  import opened Errors
  import opened World
  import opened Interpreter

  /** A run's frame holds what it made, the options it was made with, the caller's context filled in, and the time
      at which its context was made. */
  datatype Kont =
    | Finished
    | Resume(locals: Locals, next: Job, rest: Kont)
    | InTx(tx: TxId, ch: ChanId, txOpts: TxOpts, time: nat, rest: Kont)
    | InNoTx(ch: ChanId, noTxOpts: NoTxOpts, time: nat, rest: Kont)
    | Round(locals: Locals, call: Call, i: nat, rest: Kont)

  datatype Control =
    | Executing(locals: Locals, job: Job)
    | Calling(locals: Locals, call: Call)
    | Trying(locals: Locals, call: Call, i: nat)
    | Attempting(locals: Locals, call: Call)
    | JobEnded(outcome: Outcome)
    | Deferring(res: Res, err: Option<Error>)
    | Closing(res: Res, err: Option<Error>)
    | Ended(res: Res, err: Option<Error>)

  datatype State = State(w: World, control: Control, kont: Kont)

  /** What the retrying manager tells of the loop's end. */
  function Told(res: Res, err: Option<Error>): Control {
    if err.Some? then Ended(None, Some(Wrap(Retry, err.value))) else Ended(res, None)
  }

  /** One step. A state that no run gets into stays as it is. */
  function Micro(env: Env, s: State): State
    requires ValidEnv(env) && WellFormed(s.w)
  {
    match s.control
    case Executing(l, job) => ExecStep(env, s.w, l, job, s.kont)
    case Calling(l, call) =>
      s.(control := if env.retrier.None? then Attempting(l, call) else Trying(l, call, 0))
    case Trying(l, call, i) =>
      var dead := ErrOf(env, CallCtx(call), Now(s.w));
      if dead.Some? then s.(control := Told(None, Some(CtxError(dead.value))))
      else State(s.w, Attempting(l, call), Round(l, call, i, s.kont))
    case Attempting(l, call) => AttemptStep(env, s.w, l, call, s.kont)
    case JobEnded(o) => JobEndStep(env, s.w, o, s.kont)
    case Deferring(res, err) =>
      if err.None? then s.(control := Closing(res, None))
      else if s.kont.InTx? && s.kont.tx < |s.w.txs| then
        var answer := env.rollback(Now(s.w));
        var err' := if answer.None? then err.value else Wrap(RollbackTx(answer.value), err.value);
        State(Rollback(env, s.w, s.kont.tx), Closing(res, Some(err')), s.kont)
      else s
    case Closing(res, err) =>
      if (s.kont.InTx? || s.kont.InNoTx?) && s.kont.ch < |s.w.chans| && s.w.chans[s.kont.ch] then
        State(Close(s.w, s.kont.ch), Ended(res, err), s.kont.rest)
      else s
    case Ended(res, err) => EndStep(env, s.w, res, err, s.kont)
  }

  function ExecStep(env: Env, w: World, l: Locals, job: Job, k: Kont): State
    requires ValidEnv(env) && WellFormed(w)
  {
    if job.Run? then State(w, Calling(l, job.call), Resume(l, job.next, k))
    else
      var (w1, p) := Act(env, w, l, job);
      State(w1, if p.Stops? then JobEnded(p.outcome) else Executing(p.locals, p.next), k)
  }

  function AttemptStep(env: Env, w: World, l: Locals, call: Call, k: Kont): State {
    match call
    case TxCall(o, body) =>
      var raw := OrBackground(o.ctx);
      var opts := o.(ctx := Some(raw));
      var answer := env.begin(Now(w));
      if answer.Some? then
        State(Log(w, BeginErr(opts, answer.value)), Ended(None, Some(Wrap(BeginTx, answer.value))), k)
      else
        State(OpenTx(env, w, opts, raw), Executing(BindCtx(l, |w.ctxs|), body),
              InTx(|w.txs|, |w.chans|, opts, Now(w) + 1, k))
    case NoTxCall(o, body) =>
      var raw := OrBackground(o.ctx);
      var opts := o.(ctx := Some(raw));
      State(NewContext(w, raw, ProviderDB(env, opts, Now(w)), None), Executing(BindCtx(l, |w.ctxs|), body),
            InNoTx(|w.chans|, opts, Now(w), k))
  }

  function JobEndStep(env: Env, w: World, o: Outcome, k: Kont): State {
    match o
    case Panicked(v) =>
      if k.InTx? then State(w, Deferring(None, Some(Error(Panic(v), []))), k)
      else if k.InNoTx? then State(w, Closing(None, Some(Error(Panic(v), []))), k)
      else State(w, JobEnded(o), k)
    case Returned(res, err) =>
      if k.InNoTx? then State(w, Closing(res, err), k)
      else if !k.InTx? || k.tx >= |w.txs| then State(w, JobEnded(o), k)
      else if err.Some? then State(w, Deferring(None, err), k)
      else
        match env.commit(Now(w))
        case CommitDone => State(Commit(env, w, k.tx), Deferring(res, None), k)
        case CommitFails(e) => State(Commit(env, w, k.tx), Deferring(None, Some(Wrap(CommitTx, e))), k)
        case CommitPanics(v) => State(Commit(env, w, k.tx), Deferring(None, Some(Error(Panic(v), []))), k)
  }

  function EndStep(env: Env, w: World, res: Res, err: Option<Error>, k: Kont): State
    requires ValidEnv(env)
  {
    match k
    case Resume(l, next, rest) => State(w, Executing(BindReturn(l, CallResult(w, res, err)), next), rest)
    case Round(l, call, i, rest) =>
      if err.None? || !NeedRetry(err.value) || env.retrier.None? || i >= Budget(env) then State(w, Told(res, err), rest)
      else
        var cut := ErrOf(env, CallCtx(call), Now(w));
        if cut.Some? then State(Log(w, WaitCut(cut.value)), Told(res, Some(CtxError(cut.value))), rest)
        else
          State(Log(w, Waited(Delay(env, w, i))),
                if i + 1 == Budget(env) then Told(res, err) else Trying(l, call, i + 1), rest)
    case _ => State(w, Ended(res, err), k)
  }

  lemma MicroWellFormed(env: Env, s: State)
    requires ValidEnv(env) && WellFormed(s.w)
    ensures WellFormed(Micro(env, s).w)
  {
    hide Grows;
  }

  function Steps(env: Env, s: State, n: nat): (r: State)
    requires ValidEnv(env) && WellFormed(s.w)
    ensures WellFormed(r.w)
  {
    if n == 0 then s
    else
      MicroWellFormed(env, Steps(env, s, n - 1));
      Micro(env, Steps(env, s, n - 1))
  }

  lemma {:induction false} StepsAdd(env: Env, s: State, m: nat, n: nat)
    requires ValidEnv(env) && WellFormed(s.w)
    ensures Steps(env, Steps(env, s, m), n) == Steps(env, s, m + n)
  {
    hide Micro, WellFormed, ValidEnv;
    if n == 0 {
    } else {
      StepsAdd(env, s, m, n - 1);
    }
  }

  // ----- The machine computes what the interpreter says -----

  /** Some number of steps leads from s to t. */
  ghost predicate Reaches(env: Env, s: State, t: State)
    requires ValidEnv(env) && WellFormed(s.w)
  {
    exists n: nat :: Steps(env, s, n) == t
  }

  lemma ReachesByStep(env: Env, s: State, t: State)
    requires ValidEnv(env) && WellFormed(s.w) && WellFormed(Micro(env, s).w)
    requires Reaches(env, Micro(env, s), t)
    ensures Reaches(env, s, t)
  {
    var n: nat :| Steps(env, Micro(env, s), n) == t;
    assert Steps(env, s, 1) == Micro(env, s) by {
      assert Steps(env, s, 0) == s;
    }
    StepsAdd(env, s, 1, n);
  }

  lemma ReachesTransitive(env: Env, s: State, t: State, u: State)
    requires ValidEnv(env) && WellFormed(s.w) && WellFormed(t.w)
    requires Reaches(env, s, t) && Reaches(env, t, u)
    ensures Reaches(env, s, u)
  {
    var m: nat :| Steps(env, s, m) == t;
    var n: nat :| Steps(env, t, n) == u;
    StepsAdd(env, s, m, n);
  }

  lemma ReachesItself(env: Env, s: State)
    requires ValidEnv(env) && WellFormed(s.w)
    ensures Reaches(env, s, s)
  {
    assert Steps(env, s, 0) == s;
  }

  lemma {:induction false} ExecReached(env: Env, w: World, l: Locals, job: Job, k: Kont)
    requires ValidEnv(env) && WellFormed(w)
    ensures var r := Exec(env, w, l, job);
            Reaches(env, State(w, Executing(l, job), k), State(r.0, JobEnded(r.1), k))
    decreases job, 0
  {
    hide RunCall, Grows, Reaches;
    var s := State(w, Executing(l, job), k);
    var (w', o) := Exec(env, w, l, job);
    var t := State(w', JobEnded(o), k);
    if job.Run? {
      var c := RunCall(env, w, l, job.call);
      var k1 := Resume(l, job.next, k);
      var mid := State(c.w, Ended(c.res, c.err), k1);
      RunCallReached(env, w, l, job.call, k1);
      ExecReached(env, c.w, BindReturn(l, c), job.next, k);
      ReachesByStep(env, mid, t);
      ReachesTransitive(env, State(w, Calling(l, job.call), k1), mid, t);
    } else {
      var (w1, p) := Act(env, w, l, job);
      if p.Stops? {
        ReachesItself(env, t);
      } else {
        ExecReached(env, w1, p.locals, p.next, k);
      }
    }
    ReachesByStep(env, s, t);
  }

  /** The frame of a transactional run that may still end its transaction and close its channel. */
  predicate LiveFrame(w: World, k: Kont) {
    k.InTx? && k.tx < |w.txs| && k.ch < |w.chans| && w.chans[k.ch]
  }

  lemma ClosingReached(env: Env, w: World, res: Res, err: Option<Error>, k: Kont)
    requires ValidEnv(env) && WellFormed(w) && LiveFrame(w, k)
    ensures Reaches(env, State(w, Closing(res, err), k), State(Close(w, k.ch), Ended(res, err), k.rest))
  {
    hide Reaches;
    var t := State(Close(w, k.ch), Ended(res, err), k.rest);
    ReachesItself(env, t);
    ReachesByStep(env, State(w, Closing(res, err), k), t);
  }

  lemma DeferringReached(env: Env, w: World, res: Res, err: Option<Error>, k: Kont)
    requires ValidEnv(env) && WellFormed(w) && LiveFrame(w, k)
    requires err.None? ==> w.txs[k.tx].status == Committed
    ensures var r := Deferred(env, w, k.tx, k.ch, res, err);
            Reaches(env, State(w, Deferring(res, err), k), State(r.w, Ended(r.res, r.err), k.rest))
  {
    hide Reaches, Finishes, ValidEnv;
    var r := Deferred(env, w, k.tx, k.ch, res, err);
    var s := State(w, Deferring(res, err), k);
    var s1 := Micro(env, s);
    ClosingReached(env, s1.w, r.res, r.err, k);
    ReachesByStep(env, s, State(r.w, Ended(r.res, r.err), k.rest));
  }

  lemma FinishTxReached(env: Env, w: World, o: Outcome, k: Kont)
    requires ValidEnv(env) && WellFormed(w) && LiveFrame(w, k) && w.txs[k.tx].status == Active
    ensures var r := FinishTx(env, w, k.tx, k.ch, o);
            Reaches(env, State(w, JobEnded(o), k), State(r.w, Ended(r.res, r.err), k.rest))
  {
    hide Reaches, Finishes, ValidEnv;
    var r := FinishTx(env, w, k.tx, k.ch, o);
    var s := State(w, JobEnded(o), k);
    var s1 := Micro(env, s);
    DeferringReached(env, s1.w, s1.control.res, s1.control.err, k);
    ReachesByStep(env, s, State(r.w, Ended(r.res, r.err), k.rest));
  }

  lemma {:induction false} AttemptReached(env: Env, w: World, l: Locals, call: Call, k: Kont)
    requires ValidEnv(env) && WellFormed(w)
    ensures var r := Attempt(env, w, l, call);
            Reaches(env, State(w, Attempting(l, call), k), State(r.w, Ended(r.res, r.err), k))
    decreases call, 1
  {
    hide Reaches, Grows, Exec, FinishTx;
    var s := State(w, Attempting(l, call), k);
    var r := Attempt(env, w, l, call);
    var t := State(r.w, Ended(r.res, r.err), k);
    var s1 := Micro(env, s);
    if call.NoTxCall? {
      assert r == RunNoTx(env, w, l, call);
      var (w2, o) := Exec(env, s1.w, s1.control.locals, call.body);
      ExecReached(env, s1.w, s1.control.locals, call.body, s1.kont);
      ChannelStaysOpen(s1.w, w2, |w.chans|);
      var s2 := State(w2, JobEnded(o), s1.kont);
      ReachesItself(env, t);
      ReachesByStep(env, Micro(env, s2), t);
      ReachesByStep(env, s2, t);
      ReachesTransitive(env, s1, s2, t);
    } else {
      assert r == RunTx(env, w, l, call);
      if env.begin(Now(w)).Some? {
        ReachesItself(env, t);
      } else {
        var (w2, o) := Exec(env, s1.w, s1.control.locals, call.body);
        ExecReached(env, s1.w, s1.control.locals, call.body, s1.kont);
        ChannelStaysOpen(s1.w, w2, |w.chans|);
        TransactionStaysActive(s1.w, w2, |w.txs|);
        FinishTxReached(env, w2, o, s1.kont);
        ReachesTransitive(env, s1, State(w2, JobEnded(o), s1.kont), t);
      }
    }
    ReachesByStep(env, s, t);
  }

  lemma {:induction false} DoReached(env: Env, w: World, l: Locals, call: Call, i: nat, captured: Res, k: Kont)
    requires ValidEnv(env) && WellFormed(w)
    requires env.retrier.Some? && i < Budget(env)
    ensures var r := Do(env, w, l, call, i, captured);
            Reaches(env, State(w, Trying(l, call, i), k), State(r.w, Told(r.res, r.err), k))
    decreases call, 2, Budget(env) - i
  {
    hide Reaches, Grows, Attempt, NeedRetry, Delay;
    var s := State(w, Trying(l, call, i), k);
    var r := Do(env, w, l, call, i, captured);
    var t := State(r.w, Told(r.res, r.err), k);
    var s1 := Micro(env, s);
    if ErrOf(env, CallCtx(call), Now(w)).Some? {
      ReachesItself(env, t);
    } else {
      var a := Attempt(env, w, l, call);
      AttemptReached(env, w, l, call, s1.kont);
      var s2 := State(a.w, Ended(a.res, a.err), s1.kont);
      var s3 := Micro(env, s2);
      if s3.control.Trying? {
        DoReached(env, s3.w, l, call, i + 1, a.res, k);
      } else {
        ReachesItself(env, t);
      }
      ReachesByStep(env, s2, t);
      ReachesTransitive(env, s1, s2, t);
    }
    ReachesByStep(env, s, t);
  }

  /** Refinement: step by step, the machine gets to exactly the world, result and error the interpreter computes. */
  lemma {:induction false} RunCallReached(env: Env, w: World, l: Locals, call: Call, k: Kont)
    requires ValidEnv(env) && WellFormed(w)
    ensures var r := RunCall(env, w, l, call);
            Reaches(env, State(w, Calling(l, call), k), State(r.w, Ended(r.res, r.err), k))
    decreases call, 3
  {
    hide Reaches, Grows, Attempt, Do;
    var s := State(w, Calling(l, call), k);
    var r := RunCall(env, w, l, call);
    if env.retrier.None? {
      AttemptReached(env, w, l, call, k);
    } else {
      DoReached(env, w, l, call, 0, None, k);
    }
    ReachesByStep(env, s, State(r.w, Ended(r.res, r.err), k));
  }

  /** A finished machine stays finished, so where it ends does not depend on how long it is run. */
  lemma {:induction false} FinishedStays(env: Env, s: State, n: nat)
    requires ValidEnv(env) && WellFormed(s.w) && s.control.Ended? && s.kont.Finished?
    ensures Steps(env, s, n) == s
  {
    hide Micro, WellFormed, ValidEnv;
    if n == 0 {
    } else {
      FinishedStays(env, s, n - 1);
      FinishedStep(env, s);
    }
  }

  lemma FinishedStep(env: Env, s: State)
    requires ValidEnv(env) && WellFormed(s.w) && s.control.Ended? && s.kont.Finished?
    ensures Micro(env, s) == s
  {
  }

  lemma FinishesAsInterpreted(env: Env, call: Call, n: nat)
    requires ValidEnv(env)
    ensures var r := RunCall(env, EMPTY_WORLD, NO_LOCALS, call);
            var s := Steps(env, State(EMPTY_WORLD, Calling(NO_LOCALS, call), Finished), n);
            s.control.Ended? && s.kont.Finished? ==> s == State(r.w, Ended(r.res, r.err), Finished)
  {
    hide RunCall;
    var start := State(EMPTY_WORLD, Calling(NO_LOCALS, call), Finished);
    var r := RunCall(env, EMPTY_WORLD, NO_LOCALS, call);
    var end := State(r.w, Ended(r.res, r.err), Finished);
    RunCallReached(env, EMPTY_WORLD, NO_LOCALS, call, Finished);
    var m: nat :| Steps(env, start, m) == end;
    var s := Steps(env, start, n);
    if s.control.Ended? && s.kont.Finished? {
      StepsAdd(env, start, m, n);
      StepsAdd(env, start, n, m);
      FinishedStays(env, s, m);
      FinishedStays(env, end, n);
    }
  }
}
