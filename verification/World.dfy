/** What the manager works on: call options, contexts, jobs, the provider and the state of the world. */
module World {
  import opened Options
  import opened Errors
  import Results
  import Retrier

  type CtxId = nat
  type ChanId = nat
  type TxId = nat

  // ----- Options and handles -----

  datatype RawCtx = Background | Caller(id: nat)

  datatype TxOpts = TxOpts(ctx: Option<RawCtx>, isolation: nat, readOnly: bool, ext: Option<nat>)

  datatype NoTxOpts = NoTxOpts(ctx: Option<RawCtx>, ext: Option<nat>)

  datatype DB = TxHandle(tx: TxId) | Pool(id: nat)

  /** A job's result; None is Go's nil. */
  type Res = Option<Results.Result>

  function OrBackground(ctx: Option<RawCtx>): RawCtx {
    if ctx.None? then Background else ctx.value
  }

  // ----- Contexts -----

  /** A context object: the caller's context, the DB it yields, the DB of contexts derived from it, and its close
      channel. */
  datatype Ctx = Ctx(raw: RawCtx, db: Option<DB>, fallbackDB: Option<DB>, ch: ChanId)

  function NoTxContext(c: Ctx): Ctx {
    c.(db := c.fallbackDB)
  }

  function Derive(c: Ctx, steps: nat): Ctx {
    if steps == 0 then c else NoTxContext(Derive(c, steps - 1))
  }

  /** However long the chain, a derived context yields the fallback DB and shares the root's channel. */
  lemma {:induction false} DerivedRoutesToFallback(c: Ctx, steps: nat)
    requires steps > 0
    ensures Derive(c, steps) == Ctx(c.raw, c.fallbackDB, c.fallbackDB, c.ch)
  {
    if steps == 1 {
    } else {
      DerivedRoutesToFallback(c, steps - 1);
    }
  }

  // ----- Jobs -----

  /** A variable in the job's scope, or any value at all, picked by the environment: a context leaked from
      elsewhere, a handle kept too long. */
  datatype Ref = Own(index: nat) | Foreign

  datatype ResExpr = NilResult | NewResult(vals: seq<Results.Value>) | ResVar(index: nat)

  datatype ErrExpr = NilError | NewError(err: Error) | ErrVar(index: nat) | WrappedVar(text: string, index: nat)

  /** The statements of a job, as a tree. Nested runs, writes and calls into other code bind variables
      that the rest of the job may use. */
  datatype Job =
    | Return(res: ResExpr, err: ErrExpr)
    | Raise(value: PanicValue)
    | GetDB(ctx: Ref, next: Job)
    | DeriveNoTx(ctx: Ref, next: Job)
    | Write(db: Ref, v: int, next: Job)
    | IfError(index: nat, failed: Job, passed: Job)
    | Invoke(tag: nat, branches: seq<Job>)
    | Run(call: Call, next: Job)

  datatype Call =
    | TxCall(txOpts: TxOpts, body: Job)
    | NoTxCall(noTxOpts: NoTxOpts, body: Job)

  /** The variables of a job; the body of a nested run sees those of the enclosing one. */
  datatype Locals = Locals(ctxs: seq<CtxId>, dbs: seq<DB>, errs: seq<Option<Error>>, results: seq<Res>)

  const NO_LOCALS := Locals([], [], [], [])

  datatype Outcome = Returned(res: Res, err: Option<Error>) | Panicked(value: PanicValue)

  // ----- The environment -----

  datatype CtxErr = CtxCanceled | CtxDeadline

  function CtxError(e: CtxErr): Error {
    Error(if e.CtxCanceled? then Canceled else DeadlineExceeded, [])
  }

  datatype CommitAnswer = CommitDone | CommitFails(err: Error) | CommitPanics(value: PanicValue)

  /** The manager's configuration and every answer the outside gives. An answer may depend on the time,
      which is the number of events so far. */
  datatype Env = Env(
    retrier: Option<Retrier.DefaultRetrier>,
    dynamicFallbackDB: bool,
    floats: Retrier.Floats,
    pool: (NoTxOpts, nat) -> Option<nat>,
    begin: nat -> Option<Error>,
    commit: nat -> CommitAnswer,
    rollback: nat -> Option<Error>,
    write: nat -> Option<Error>,
    input: nat -> nat,
    handle: nat -> DB,
    done: (nat, nat) -> Option<CtxErr>,
    draw: nat -> nat)

  ghost predicate ValidEnv(env: Env) {
    && Retrier.Float64(env.floats)
    && (env.retrier.Some? ==> Retrier.ValidRetrier(env.retrier.value))
  }

  /** `ctx.Err()` at a given time; the background context is never done. */
  function ErrOf(env: Env, ctx: RawCtx, time: nat): Option<CtxErr> {
    match ctx
    case Background => None
    case Caller(id) => env.done(id, time)
  }

  /** `DBProvider.GetDB`. */
  function ProviderDB(env: Env, opts: NoTxOpts, time: nat): Option<DB> {
    var pool := env.pool(opts, time);
    if pool.None? then None else Some(Pool(pool.value))
  }

  /** Looked up once, when the manager is made. */
  function DefaultDB(env: Env): Option<DB> {
    ProviderDB(env, NoTxOpts(None, None), 0)
  }

  /** The fallback DB of a run that asks for it at the given time. */
  function FallbackDB(env: Env, raw: RawCtx, ext: Option<nat>, time: nat): Option<DB> {
    if env.dynamicFallbackDB then ProviderDB(env, NoTxOpts(Some(raw), ext), time) else DefaultDB(env)
  }

  // ----- The world -----

  datatype Event =
    | BeginOk(tx: TxId, opts: TxOpts)
    | BeginErr(opts: TxOpts, err: Error)
    | Enter(ch: ChanId, root: CtxId, ctx: Ctx)
    | Got(c: CtxId, ch: ChanId, db: DB)
    | Refused(c: CtxId, ch: ChanId)
    | Derived(c: CtxId, from: CtxId)
    | Wrote(db: DB, v: int)
    | WriteErr(db: DB, err: Error)
    | Invoked(tag: nat)
    | CommitOk(tx: TxId)
    | CommitErr(tx: TxId, err: Error)
    | CommitPanic(tx: TxId, value: PanicValue)
    | RolledBack(tx: TxId, result: Option<Error>)
    | Closed(ch: ChanId)
    | Waited(delay: Retrier.int64)
    | WaitCut(reason: CtxErr)

  datatype TxStatus = Active | CommitFailed | Committed | Discarded

  datatype Tx = Tx(status: TxStatus, buffer: seq<int>)

  /** Close channels (true while open), contexts and transactions ever made, numbered in order; the primary
      log of committed writes, each with its transaction; the log of writes made outside transactions. */
  datatype World = World(
    trace: seq<Event>,
    chans: seq<bool>,
    ctxs: seq<Ctx>,
    txs: seq<Tx>,
    primary: seq<(TxId, int)>,
    pools: seq<(nat, int)>)

  const EMPTY_WORLD := World([], [], [], [], [], [])

  ghost predicate WellFormed(w: World) {
    forall c :: 0 <= c < |w.ctxs| ==> w.ctxs[c].ch < |w.chans|
  }

  predicate Over(tx: Tx) {
    tx.status == Committed || tx.status == Discarded
  }

  /** How a whole call may change the world. Nothing is forgotten; what was there keeps its state, but for
      the buffers of transactions still active; whatever the call made is closed and ended. */
  ghost predicate Grows(w: World, w': World) {
    && w.trace <= w'.trace
    && w.ctxs <= w'.ctxs
    && w.primary <= w'.primary
    && w.pools <= w'.pools
    && |w.chans| <= |w'.chans|
    && (forall i :: 0 <= i < |w.chans| ==> w'.chans[i] == w.chans[i])
    && (forall i :: |w.chans| <= i < |w'.chans| ==> !w'.chans[i])
    && |w.txs| <= |w'.txs|
    && (forall t :: 0 <= t < |w.txs| ==> TxGrows(w.txs[t], w'.txs[t]))
    && (forall t :: |w.txs| <= t < |w'.txs| ==> Over(w'.txs[t]))
  }

  ghost predicate TxGrows(tx: Tx, tx': Tx) {
    && tx.status == tx'.status
    && tx.buffer <= tx'.buffer
    && (tx.status != Active ==> tx.buffer == tx'.buffer)
  }

  lemma GrowsTransitive(u: World, v: World, w: World)
    requires Grows(u, v) && Grows(v, w)
    ensures Grows(u, w)
  {
    forall t | 0 <= t < |u.txs| ensures TxGrows(u.txs[t], w.txs[t]) {
      assert TxGrows(u.txs[t], v.txs[t]) && TxGrows(v.txs[t], w.txs[t]);
    }
    forall t | |u.txs| <= t < |w.txs| ensures Over(w.txs[t]) {
      if t < |v.txs| {
        assert Over(v.txs[t]) && TxGrows(v.txs[t], w.txs[t]);
      }
    }
  }

  /** A call leaves open what was open. */
  lemma ChannelStaysOpen(w: World, w': World, ch: ChanId)
    requires Grows(w, w') && ch < |w.chans| && w.chans[ch]
    ensures ch < |w'.chans| && w'.chans[ch]
  {
  }

  /** A call leaves active what was active. */
  lemma TransactionStaysActive(w: World, w': World, t: TxId)
    requires Grows(w, w') && t < |w.txs| && w.txs[t].status == Active
    ensures t < |w'.txs| && w'.txs[t].status == Active
  {
    assert TxGrows(w.txs[t], w'.txs[t]);
  }
}
