/** The manager, the retrier and the jobs they run, as functions from world to world. */
module Interpreter {
  import opened Options
  import opened Errors
  import opened World
  import Results
  import Retrier

  datatype CallResult = CallResult(w: World, res: Res, err: Option<Error>)

  function Log(w: World, e: Event): World {
    w.(trace := w.trace + [e])
  }

  function Now(w: World): nat {
    |w.trace|
  }

  // ----- The provider -----

  function SetTx(w: World, t: TxId, tx: Tx): World
    requires t < |w.txs|
  {
    w.(txs := w.txs[t := tx])
  }

  function Begin(w: World, opts: TxOpts): World {
    Log(w.(txs := w.txs + [Tx(Active, [])]), BeginOk(|w.txs|, opts))
  }

  function Tagged(t: TxId, vs: seq<int>): (r: seq<(TxId, int)>)
    ensures |r| == |vs| && forall i :: 0 <= i < |vs| ==> r[i] == (t, vs[i])
  {
    seq(|vs|, i requires 0 <= i < |vs| => (t, vs[i]))
  }

  /** A successful commit makes the buffered writes durable, in order; a failed one applies nothing. */
  function Commit(env: Env, w: World, t: TxId): World
    requires t < |w.txs|
  {
    var tx := w.txs[t];
    match env.commit(Now(w))
    case CommitDone =>
      Log(SetTx(w, t, tx.(status := Committed)).(primary := w.primary + Tagged(t, tx.buffer)), CommitOk(t))
    case CommitFails(e) => Log(SetTx(w, t, tx.(status := CommitFailed)), CommitErr(t, e))
    case CommitPanics(v) => Log(SetTx(w, t, tx.(status := CommitFailed)), CommitPanic(t, v))
  }

  function Rollback(env: Env, w: World, t: TxId): World
    requires t < |w.txs|
  {
    Log(SetTx(w, t, w.txs[t].(status := Discarded)), RolledBack(t, env.rollback(Now(w))))
  }

  /** A write through a handle. The provider refuses handles of transactions that are not active. */
  function ProviderWrite(env: Env, w: World, db: DB, v: int): (World, Option<Error>) {
    var answer := env.write(Now(w));
    if answer.Some? then (Log(w, WriteErr(db, answer.value)), answer)
    else
      match db
      case Pool(id) => (Log(w.(pools := w.pools + [(id, v)]), Wrote(db, v)), None)
      case TxHandle(t) =>
        if t < |w.txs| && w.txs[t].status == Active then
          (Log(SetTx(w, t, w.txs[t].(buffer := w.txs[t].buffer + [v])), Wrote(db, v)), None)
        else
          var closed := Error(Custom("tx is closed"), []);
          (Log(w, WriteErr(db, closed)), Some(closed))
  }

  // ----- Contexts -----

  /** A root context on a fresh channel. */
  function NewContext(w: World, raw: RawCtx, db: Option<DB>, fallbackDB: Option<DB>): World {
    var ctx := Ctx(raw, db, fallbackDB, |w.chans|);
    Log(w.(chans := w.chans + [true], ctxs := w.ctxs + [ctx]), Enter(|w.chans|, |w.ctxs|, ctx))
  }

  function DeriveContext(w: World, c: CtxId): World
    requires c < |w.ctxs|
  {
    Log(w.(ctxs := w.ctxs + [NoTxContext(w.ctxs[c])]), Derived(|w.ctxs|, c))
  }

  function Close(w: World, ch: ChanId): World
    requires ch < |w.chans| && w.chans[ch]
  {
    Log(w.(chans := w.chans[ch := false]), Closed(ch))
  }

  // ----- Variables of a job -----

  function CtxOf(env: Env, w: World, l: Locals, r: Ref): Option<CtxId> {
    var c := if r.Foreign? then Some(env.input(Now(w)))
             else if r.index < |l.ctxs| then Some(l.ctxs[r.index]) else None;
    if c.Some? && c.value < |w.ctxs| then c else None
  }

  function HandleOf(env: Env, w: World, l: Locals, r: Ref): Option<DB> {
    if r.Foreign? then Some(env.handle(Now(w)))
    else if r.index < |l.dbs| then Some(l.dbs[r.index]) else None
  }

  function ErrAt(l: Locals, index: nat): Option<Error> {
    if index < |l.errs| then l.errs[index] else None
  }

  function EvalErr(l: Locals, e: ErrExpr): Option<Error> {
    match e
    case NilError => None
    case NewError(err) => Some(err)
    case ErrVar(i) => ErrAt(l, i)
    case WrappedVar(text, i) =>
      var err := ErrAt(l, i);
      if err.None? then None else Some(Wrap(Custom(text), err.value))
  }

  function EvalRes(l: Locals, r: ResExpr): Res {
    match r
    case NilResult => None
    case NewResult(vals) => Some(Results.Result(vals))
    case ResVar(i) => if i < |l.results| then l.results[i] else None
  }

  const NIL_DEREFERENCE := PanicText("nil pointer dereference")
  const BAD_CAST := PanicText("interface conversion: interface is nil")

  function BindCtx(l: Locals, c: CtxId): Locals {
    l.(ctxs := l.ctxs + [c])
  }

  function BindReturn(l: Locals, r: CallResult): Locals {
    l.(errs := l.errs + [r.err], results := l.results + [r.res])
  }

  // ----- Jobs -----

  /** One statement of a job: the job ends, or goes on with the rest of it. */
  datatype Progress = Stops(outcome: Outcome) | GoesOn(locals: Locals, next: Job)

  /** Any statement but a nested run. */
  function Act(env: Env, w: World, l: Locals, job: Job): (r: (World, Progress))
    requires WellFormed(w) && !job.Run?
    ensures WellFormed(r.0) && Grows(w, r.0)
    ensures r.1.GoesOn? ==> (job decreases to r.1.next)
  {
    match job
    case Return(res, err) => (w, Stops(Returned(EvalRes(l, res), EvalErr(l, err))))
    case Raise(v) => (w, Stops(Panicked(v)))
    case GetDB(ref, next) =>
      var c := CtxOf(env, w, l, ref);
      if c.None? then (w, Stops(Panicked(NIL_DEREFERENCE)))
      else
        var ctx := w.ctxs[c.value];
        if !w.chans[ctx.ch] then (Log(w, Refused(c.value, ctx.ch)), Stops(Panicked(PanicError(INVALID_CONTEXT))))
        else if ctx.db.None? then (w, Stops(Panicked(BAD_CAST)))
        else (Log(w, Got(c.value, ctx.ch, ctx.db.value)), GoesOn(l.(dbs := l.dbs + [ctx.db.value]), next))
    case DeriveNoTx(ref, next) =>
      var c := CtxOf(env, w, l, ref);
      if c.None? then (w, Stops(Panicked(NIL_DEREFERENCE)))
      else (DeriveContext(w, c.value), GoesOn(BindCtx(l, |w.ctxs|), next))
    case Write(ref, v, next) =>
      var db := HandleOf(env, w, l, ref);
      if db.None? then (w, Stops(Panicked(NIL_DEREFERENCE)))
      else
        var (w1, err) := ProviderWrite(env, w, db.value, v);
        (w1, GoesOn(l.(errs := l.errs + [err]), next))
    case IfError(i, failed, passed) => (w, GoesOn(l, if ErrAt(l, i).Some? then failed else passed))
    case Invoke(tag, branches) =>
      var w1 := Log(w, Invoked(tag));
      if |branches| == 0 then (w1, Stops(Returned(None, None)))
      else (w1, GoesOn(l, branches[env.input(Now(w)) % |branches|]))
  }

  function Exec(env: Env, w: World, l: Locals, job: Job): (r: (World, Outcome))
    requires ValidEnv(env) && WellFormed(w)
    ensures WellFormed(r.0) && Grows(w, r.0)
    decreases job, 0
  {
    if job.Run? then
      var c := RunCall(env, w, l, job.call);
      var r := Exec(env, c.w, BindReturn(l, c), job.next);
      GrowsTransitive(w, c.w, r.0);
      r
    else
      var (w1, p) := Act(env, w, l, job);
      if p.Stops? then (w1, p.outcome)
      else
        var r := Exec(env, w1, p.locals, p.next);
        GrowsTransitive(w, w1, r.0);
        r
  }

  // ----- The manager -----

  function RunTx(env: Env, w: World, l: Locals, call: Call): (r: CallResult)
    requires ValidEnv(env) && WellFormed(w) && call.TxCall?
    ensures WellFormed(r.w) && Grows(w, r.w)
    ensures Now(w) < Now(r.w)
    decreases call, 0
  {
    var raw := OrBackground(call.txOpts.ctx);
    var opts := call.txOpts.(ctx := Some(raw));
    var answer := env.begin(Now(w));
    if answer.Some? then
      CallResult(Log(w, BeginErr(opts, answer.value)), None, Some(Wrap(BeginTx, answer.value)))
    else
      var w1 := OpenTx(env, w, opts, raw);
      var (w2, o) := Exec(env, w1, BindCtx(l, |w.ctxs|), call.body);
      assert TxGrows(w1.txs[|w.txs|], w2.txs[|w.txs|]);
      var r := FinishTx(env, w2, |w.txs|, |w.chans|, o);
      FinishedGrows(w, w1, w2, r.w, |w.txs|, |w.chans|);
      r
  }

  /** What the part after the job does to the world: end the transaction, close the channel. */
  ghost predicate Finishes(w: World, w': World, t: TxId, ch: ChanId)
    requires t < |w.txs| && ch < |w.chans|
  {
    && w.trace < w'.trace
    && w'.chans == w.chans[ch := false]
    && w'.ctxs == w.ctxs
    && |w'.txs| == |w.txs|
    && (forall i :: 0 <= i < |w.txs| && i != t ==> w'.txs[i] == w.txs[i])
    && Over(w'.txs[t])
    && w.primary <= w'.primary
    && w'.pools == w.pools
  }

  lemma FinishedGrows(w: World, start: World, ran: World, w': World, t: TxId, ch: ChanId)
    requires t == |w.txs| && ch == |w.chans|
    requires start.chans == w.chans + [true] && start.txs == w.txs + [Tx(Active, [])]
    requires w.trace <= start.trace && w.ctxs <= start.ctxs
    requires w.primary == start.primary && w.pools == start.pools
    requires Grows(start, ran) && Finishes(ran, w', t, ch)
    ensures Grows(w, w')
  {
    forall i | 0 <= i < |w.txs| ensures TxGrows(w.txs[i], w'.txs[i]) {
      assert TxGrows(start.txs[i], ran.txs[i]);
    }
  }

  /** Begin succeeded: the transaction and the context the job will get. */
  function OpenTx(env: Env, w: World, opts: TxOpts, raw: RawCtx): World {
    var w1 := Begin(w, opts);
    NewContext(w1, raw, Some(TxHandle(|w.txs|)), FallbackDB(env, raw, opts.ext, Now(w1)))
  }

  /** After the job: commit unless it failed, then the deferred part: recover, roll back on any error, close. */
  function FinishTx(env: Env, w: World, t: TxId, ch: ChanId, o: Outcome): (r: CallResult)
    requires t < |w.txs| && ch < |w.chans| && w.chans[ch] && w.txs[t].status == Active
    ensures Finishes(w, r.w, t, ch)
  {
    match o
    case Panicked(v) => Deferred(env, w, t, ch, None, Some(Error(Panic(v), [])))
    case Returned(res, err) =>
      if err.Some? then Deferred(env, w, t, ch, None, err)
      else
        var w1 := Commit(env, w, t);
        match env.commit(Now(w))
        case CommitDone => Deferred(env, w1, t, ch, res, None)
        case CommitFails(e) => Deferred(env, w1, t, ch, None, Some(Wrap(CommitTx, e)))
        case CommitPanics(v) => Deferred(env, w1, t, ch, None, Some(Error(Panic(v), [])))
  }

  function Deferred(env: Env, w: World, t: TxId, ch: ChanId, res: Res, err: Option<Error>): (r: CallResult)
    requires t < |w.txs| && ch < |w.chans| && w.chans[ch]
    requires err.None? ==> w.txs[t].status == Committed
    ensures Finishes(w, r.w, t, ch)
  {
    if err.None? then CallResult(Close(w, ch), res, None)
    else
      var answer := env.rollback(Now(w));
      var err' := if answer.None? then err.value else Wrap(RollbackTx(answer.value), err.value);
      CallResult(Close(Rollback(env, w, t), ch), res, Some(err'))
  }

  function RunNoTx(env: Env, w: World, l: Locals, call: Call): (r: CallResult)
    requires ValidEnv(env) && WellFormed(w) && call.NoTxCall?
    ensures WellFormed(r.w) && Grows(w, r.w)
    ensures Now(w) < Now(r.w)
    decreases call, 0
  {
    var raw := OrBackground(call.noTxOpts.ctx);
    var w1 := NewContext(w, raw, ProviderDB(env, call.noTxOpts.(ctx := Some(raw)), Now(w)), None);
    var (w2, o) := Exec(env, w1, BindCtx(l, |w.ctxs|), call.body);
    var w3 := Close(w2, |w.chans|);
    match o
    case Panicked(v) => CallResult(w3, None, Some(Error(Panic(v), [])))
    case Returned(res, err) => CallResult(w3, res, err)
  }

  function Attempt(env: Env, w: World, l: Locals, call: Call): (r: CallResult)
    requires ValidEnv(env) && WellFormed(w)
    ensures WellFormed(r.w) && Grows(w, r.w)
    ensures Now(w) < Now(r.w)
    decreases call, 1
  {
    if call.TxCall? then RunTx(env, w, l, call) else RunNoTx(env, w, l, call)
  }

  // ----- The retrier around it -----

  /** How many attempts there can be. */
  function Budget(env: Env): nat {
    if env.retrier.None? then 1 else |env.retrier.value.retryDelays|
  }

  function CallCtx(call: Call): RawCtx {
    OrBackground(if call.TxCall? then call.txOpts.ctx else call.noTxOpts.ctx)
  }

  function Delay(env: Env, w: World, i: nat): Retrier.int64
    requires ValidEnv(env) && env.retrier.Some? && i < Budget(env)
  {
    var r := env.retrier.value;
    assert r.retryDelays[i] in r.retryDelays;
    Retrier.CalcDelay(r.retryDelays[i], r.jitter, env.floats, env.draw(Now(w))).value
  }

  /** Logging keeps what a call may do. */
  lemma LogGrows(w: World, w': World)
    requires Grows(w, w')
    ensures forall e :: Grows(w, Log(w', e))
  {
  }

  lemma GrowsItself(w: World)
    ensures Grows(w, w)
  {
  }

  /** The retry loop from its i-th round on; captured is the result variable the attempts assign. */
  function Do(env: Env, w: World, l: Locals, call: Call, i: nat, captured: Res): (r: CallResult)
    requires ValidEnv(env) && WellFormed(w)
    requires env.retrier.Some? && i < Budget(env)
    ensures WellFormed(r.w) && Grows(w, r.w)
    decreases call, 2, Budget(env) - i
  {
    hide Grows, NeedRetry, Delay, Attempt;
    GrowsItself(w);
    var dead := ErrOf(env, CallCtx(call), Now(w));
    if dead.Some? then CallResult(w, captured, Some(CtxError(dead.value)))
    else
      var a := Attempt(env, w, l, call);
      if a.err.None? || !NeedRetry(a.err.value) then a
      else
        LogGrows(w, a.w);
        var cut := ErrOf(env, CallCtx(call), Now(a.w));
        if cut.Some? then CallResult(Log(a.w, WaitCut(cut.value)), a.res, Some(CtxError(cut.value)))
        else
          var w1 := Log(a.w, Waited(Delay(env, a.w, i)));
          if i + 1 == Budget(env) then CallResult(w1, a.res, a.err)
          else
            var r := Do(env, w1, l, call, i + 1, a.res);
            GrowsTransitive(w, w1, r.w);
            r
  }

  /** A run as the caller of `New` sees it, with or without a retrier. */
  function RunCall(env: Env, w: World, l: Locals, call: Call): (r: CallResult)
    requires ValidEnv(env) && WellFormed(w)
    ensures WellFormed(r.w) && Grows(w, r.w)
    decreases call, 3
  {
    if env.retrier.None? then Attempt(env, w, l, call)
    else
      var r := Do(env, w, l, call, 0, None);
      if r.err.Some? then CallResult(r.w, None, Some(Wrap(Retry, r.err.value)))
      else CallResult(r.w, r.res, None)
  }

  /** A program: calls one after the other, on an empty database. Later calls may use contexts of earlier ones. */
  function RunProgram(env: Env, calls: seq<Call>): (w: World)
    requires ValidEnv(env)
    ensures WellFormed(w)
  {
    if calls == [] then EMPTY_WORLD
    else RunCall(env, RunProgram(env, calls[..|calls| - 1]), NO_LOCALS, calls[|calls| - 1]).w
  }
}
