/** What one run and one retried call come to, said of what the outside answers and in plain values only: which
    options the database gets, which DB the contexts yield, which error is returned, and when retrying stops. */
module Outcomes {
  import opened Options
  import opened Errors
  import opened World
  import opened Interpreter
  import opened RetriedRuns
  import Retrier

  // ----- How a run starts -----

  /** A missing context is the background one. */
  function FilledIn(ctx: Option<RawCtx>): RawCtx {
    match ctx
    case None => Background
    case Some(raw) => raw
  }

  /** What BeginTx is given. */
  function SentOpts(o: TxOpts): TxOpts {
    TxOpts(Some(FilledIn(o.ctx)), o.isolation, o.readOnly, o.ext)
  }

  function Handle(id: Option<nat>): Option<DB> {
    match id
    case None => None
    case Some(x) => Some(Pool(x))
  }

  /** The job of a transactional run starts after two events, with one more channel, context and transaction. */
  function TxStart(env: Env, w: World, o: TxOpts): (w1: World)
    requires WellFormed(w)
    ensures WellFormed(w1)
  {
    var fallbackDB := if env.dynamicFallbackDB then env.pool(NoTxOpts(Some(FilledIn(o.ctx)), o.ext), |w.trace| + 1)
                      else env.pool(NoTxOpts(None, None), 0);
    var ctx := Ctx(FilledIn(o.ctx), Some(TxHandle(|w.txs|)), Handle(fallbackDB), |w.chans|);
    World(w.trace + [BeginOk(|w.txs|, SentOpts(o)), Enter(|w.chans|, |w.ctxs|, ctx)],
          w.chans + [true], w.ctxs + [ctx], w.txs + [Tx(Active, [])], w.primary, w.pools)
  }

  function NoTxStart(env: Env, w: World, o: NoTxOpts): (w1: World)
    requires WellFormed(w)
    ensures WellFormed(w1)
  {
    var db := env.pool(NoTxOpts(Some(FilledIn(o.ctx)), o.ext), |w.trace|);
    var ctx := Ctx(FilledIn(o.ctx), Handle(db), None, |w.chans|);
    World(w.trace + [Enter(|w.chans|, |w.ctxs|, ctx)], w.chans + [true], w.ctxs + [ctx], w.txs, w.primary, w.pools)
  }

  /** The job's context is the last one it knows. */
  function StartLocals(l: Locals, w: World): Locals {
    Locals(l.ctxs + [|w.ctxs|], l.dbs, l.errs, l.results)
  }

  // ----- How a run ends -----

  /** The error to roll back for, if there is one: the job's own, that of a failed commit, a panic. */
  function Fault(env: Env, w: World, o: Outcome): Option<Error> {
    match o
    case Panicked(v) => Some(Error(Panic(v), []))
    case Returned(_, Some(e)) => Some(e)
    case Returned(_, None) =>
      match env.commit(|w.trace|)
      case CommitDone => None
      case CommitFails(e) => Some(Error(CommitTx, [e]))
      case CommitPanics(v) => Some(Error(Panic(v), []))
  }

  /** A commit is tried exactly when the job returns no error. */
  function CommitEvents(env: Env, w: World, o: Outcome, t: TxId): seq<Event> {
    match o
    case Returned(_, None) =>
      (match env.commit(|w.trace|)
       case CommitDone => [CommitOk(t)]
       case CommitFails(e) => [CommitErr(t, e)]
       case CommitPanics(v) => [CommitPanic(t, v)])
    case _ => []
  }

  /** The run's error: the fault as it is if rollback answers nil, and under the rollback's error if not. */
  function Reported(fault: Option<Error>, rollback: Option<Error>): Option<Error> {
    match (fault, rollback)
    case (Some(e), Some(q)) => Some(Error(RollbackTx(q), [e]))
    case _ => fault
  }

  /** Begin fails: its error, wrapped, and nothing happens but that. */
  lemma BeginFailureReturned(env: Env, w: World, l: Locals, o: TxOpts, body: Job)
    requires ValidEnv(env) && WellFormed(w) && env.begin(|w.trace|).Some?
    ensures var e := env.begin(|w.trace|).value;
            RunTx(env, w, l, TxCall(o, body))
            == CallResult(w.(trace := w.trace + [BeginErr(SentOpts(o), e)]), None, Some(Error(BeginTx, [e])))
  {
  }

  lemma TxStartsSo(env: Env, w: World, l: Locals, o: TxOpts, body: Job)
    requires ValidEnv(env) && WellFormed(w)
    ensures JobStart(env, l, TxCall(o, body), w) == (TxStart(env, w, o), StartLocals(l, w))
  {
    hide WellFormed;
    var w1 := JobStart(env, l, TxCall(o, body), w).0;
    assert w1.trace == TxStart(env, w, o).trace;
  }

  lemma NoTxStartsSo(env: Env, w: World, l: Locals, o: NoTxOpts, body: Job)
    requires ValidEnv(env) && WellFormed(w)
    ensures JobStart(env, l, NoTxCall(o, body), w) == (NoTxStart(env, w, o), StartLocals(l, w))
  {
    hide WellFormed;
  }

  /** Everything a transactional run does before and after its job: what it returns, what it tells the database, in
      which order, and what becomes of its transaction and its channel. */
  lemma TxRunOutcome(env: Env, w: World, l: Locals, o: TxOpts, body: Job)
    requires ValidEnv(env) && WellFormed(w) && env.begin(|w.trace|).None?
    ensures var (w2, out) := Exec(env, TxStart(env, w, o), StartLocals(l, w), body);
            var r := RunTx(env, w, l, TxCall(o, body));
            var t, ch := |w.txs|, |w.chans|;
            var fault, commit := Fault(env, w2, out), CommitEvents(env, w2, out, t);
            var rollback := env.rollback(|w2.trace| + |commit|);
            && t < |w2.txs| && ch < |w2.chans|
            && r.err == Reported(fault, rollback)
            && r.res == (if fault.None? then out.res else None)
            && r.w == World(
                 w2.trace + commit + (if fault.Some? then [RolledBack(t, rollback)] else []) + [Closed(ch)],
                 w2.chans[ch := false],
                 w2.ctxs,
                 w2.txs[t := Tx(if fault.None? then Committed else Discarded, w2.txs[t].buffer)],
                 w2.primary + (if fault.None? then Tagged(t, w2.txs[t].buffer) else []),
                 w2.pools)
  {
    hide Exec, Grows;
    TxStartsSo(env, w, l, o, body);
    var w1 := TxStart(env, w, o);
    var (w2, out) := Exec(env, w1, StartLocals(l, w), body);
    TransactionStaysActive(w1, w2, |w.txs|);
    ChannelStaysOpen(w1, w2, |w.chans|);
    TxEndsSo(env, w2, |w.txs|, |w.chans|, out);
  }

  lemma TxEndsSo(env: Env, w: World, t: TxId, ch: ChanId, out: Outcome)
    requires t < |w.txs| && ch < |w.chans| && w.chans[ch] && w.txs[t].status == Active
    ensures var r := FinishTx(env, w, t, ch, out);
            var fault, commit := Fault(env, w, out), CommitEvents(env, w, out, t);
            var rollback := env.rollback(|w.trace| + |commit|);
            && r.err == Reported(fault, rollback)
            && r.res == (if fault.None? then out.res else None)
            && r.w == World(
                 w.trace + commit + (if fault.Some? then [RolledBack(t, rollback)] else []) + [Closed(ch)],
                 w.chans[ch := false],
                 w.ctxs,
                 w.txs[t := Tx(if fault.None? then Committed else Discarded, w.txs[t].buffer)],
                 w.primary + (if fault.None? then Tagged(t, w.txs[t].buffer) else []),
                 w.pools)
  {
    hide Finishes;
    var r := FinishTx(env, w, t, ch, out);
    var fault, commit := Fault(env, w, out), CommitEvents(env, w, out, t);
    var rollback := env.rollback(|w.trace| + |commit|);
    assert r.w.trace == w.trace + commit + (if fault.Some? then [RolledBack(t, rollback)] else []) + [Closed(ch)];
    assert r.w.txs == w.txs[t := Tx(if fault.None? then Committed else Discarded, w.txs[t].buffer)];
  }

  /** The same of a run without transaction, which hands out what its job returned, also a result with an error. */
  lemma NoTxRunOutcome(env: Env, w: World, l: Locals, o: NoTxOpts, body: Job)
    requires ValidEnv(env) && WellFormed(w)
    ensures var (w2, out) := Exec(env, NoTxStart(env, w, o), StartLocals(l, w), body);
            var r, ch := RunNoTx(env, w, l, NoTxCall(o, body)), |w.chans|;
            && ch < |w2.chans|
            && r.w == World(w2.trace + [Closed(ch)], w2.chans[ch := false], w2.ctxs, w2.txs, w2.primary, w2.pools)
            && match out
               case Panicked(v) => r.res == None && r.err == Some(Error(Panic(v), []))
               case Returned(res, err) => r.res == res && r.err == err
  {
    hide Exec, Grows;
    NoTxStartsSo(env, w, l, o, body);
    var w1 := NoTxStart(env, w, o);
    ChannelStaysOpen(w1, Exec(env, w1, StartLocals(l, w), body).0, |w.chans|);
  }

  // ----- When retrying stops -----

  /** Why the caller's context is done at a time, if it is: a missing context never is. */
  function DoneAt(env: Env, call: Call, time: nat): Option<CtxErr> {
    match call
    case TxCall(TxOpts(Some(Caller(id)), _, _, _), _) => env.done(id, time)
    case NoTxCall(NoTxOpts(Some(Caller(id)), _), _) => env.done(id, time)
    case _ => None
  }

  /** A cancellation is told as a cancellation, a deadline as a deadline. */
  function Reason(e: CtxErr): Error {
    match e
    case CtxCanceled => Error(Canceled, [])
    case CtxDeadline => Error(DeadlineExceeded, [])
  }

  lemma DoneAgrees(env: Env, call: Call, time: nat)
    ensures ErrOf(env, CallCtx(call), time) == DoneAt(env, call, time)
    ensures forall e :: CtxError(e) == Reason(e)
  {
  }

  /** An attempt that the loop goes on after: it failed retryably, and the caller's context is not done. */
  ghost predicate GoesOnAfter(env: Env, call: Call, a: Att) {
    && a.result.err.Some? && NeedRetry(a.result.err.value)
    && DoneAt(env, call, |a.result.w.trace|).None?
  }

  /** Waits for round k: the delay is the k-th, give or take its jitter. */
  ghost predicate WaitsFor(env: Env, k: nat, w: World, w': World)
    requires env.retrier.Some? && k < |env.retrier.value.retryDelays|
  {
    var base, jitter := env.retrier.value.retryDelays[k] as int as real, env.retrier.value.jitter;
    exists d: Retrier.int64 ::
      && w' == w.(trace := w.trace + [Waited(d)])
      && base - base * jitter - 1.0 < d as int as real < base + base * jitter + 1.0
  }

  lemma LoggedWait(env: Env, w: World, k: nat)
    requires ValidEnv(env) && env.retrier.Some? && k < |env.retrier.value.retryDelays|
    ensures WaitsFor(env, k, w, Log(w, Waited(Delay(env, w, k))))
  {
    hide Retrier.CalcDelay, Retrier.Float64;
    var r := env.retrier.value;
    assert r.retryDelays[k] in r.retryDelays;
    Retrier.DelayNearBase(r.retryDelays[k], r.jitter, env.floats, env.draw(Now(w)));
  }

  /** The attempts of a retried call: none if the caller's context is done at the start; otherwise each starts with
      that context not done, the first at once, every next one after the wait that belongs to an attempt the loop
      goes on after. */
  ghost predicate AttemptsSo(env: Env, w: World, l: Locals, call: Call, atts: seq<Att>)
    requires ValidEnv(env) && env.retrier.Some?
  {
    && |atts| <= |env.retrier.value.retryDelays|
    && (atts == [] <==> DoneAt(env, call, |w.trace|).Some?)
    && (atts != [] ==> atts[0].start == w)
    && (forall k :: 0 <= k < |atts| ==>
          && WellFormed(atts[k].start) && DoneAt(env, call, |atts[k].start.trace|).None?
          && atts[k].result == Attempt(env, atts[k].start, l, call))
    && (forall k :: 0 <= k < |atts| - 1 ==>
          GoesOnAfter(env, call, atts[k]) && WaitsFor(env, k, atts[k].result.w, atts[k + 1].start))
  }

  /** What the caller gets. Every error comes under the retrier's, and without a result. */
  ghost predicate AnsweredSo(env: Env, w: World, call: Call, atts: seq<Att>, r: CallResult)
    requires env.retrier.Some? && |atts| <= |env.retrier.value.retryDelays|
  {
    if atts == [] then
      && DoneAt(env, call, |w.trace|).Some?
      && r == CallResult(w, None, Some(Error(Retry, [Reason(DoneAt(env, call, |w.trace|).value)])))
    else
      var a := Last(atts);
      match a.result.err
      case None => r == a.result
      case Some(e) =>
        if !NeedRetry(e) then r == CallResult(a.result.w, None, Some(Error(Retry, [e])))
        else
          match DoneAt(env, call, |a.result.w.trace|)
          case Some(why) =>
            r == CallResult(a.result.w.(trace := a.result.w.trace + [WaitCut(why)]), None,
                            Some(Error(Retry, [Reason(why)])))
          case None =>
            && WaitsFor(env, |atts| - 1, a.result.w, r.w) && r.res == None
            && if |atts| == |env.retrier.value.retryDelays| then r.err == Some(Error(Retry, [e]))
               else
                 && DoneAt(env, call, |r.w.trace|).Some?
                 && r.err == Some(Error(Retry, [Reason(DoneAt(env, call, |r.w.trace|).value)]))
  }

  /** Everything a retried call does around its attempts. */
  lemma RetriedCallOutcome(env: Env, w: World, l: Locals, call: Call)
    requires ValidEnv(env) && WellFormed(w) && env.retrier.Some?
    ensures var atts := History(env, w, l, call);
            && AttemptsSo(env, w, l, call, atts)
            && AnsweredSo(env, w, call, atts, RunCall(env, w, l, call))
  {
    hide Attempt, NeedRetry, Delay, Grows, Do, Attempts, WaitsFor, DoneAt, CallCtx, ErrOf, CtxError, WellFormed;
    DoRefines(env, w, l, call, 0, None);
    var atts := History(env, w, l, call);
    forall time ensures ErrOf(env, CallCtx(call), time) == DoneAt(env, call, time) {
      DoneAgrees(env, call, time);
    }
    DoneAgrees(env, call, 0);
    forall k | 0 <= k < |atts| - 1
      ensures GoesOnAfter(env, call, atts[k]) && WaitsFor(env, k, atts[k].result.w, atts[k + 1].start)
    {
      assert Waits(env, l, call, 0 + k, atts[k], atts[k + 1]);
      LoggedWait(env, atts[k].result.w, k);
    }
    if atts != [] {
      LoggedWait(env, Last(atts).result.w, |atts| - 1);
    }
  }

  /** Without a retrier a call is one attempt, whatever becomes of the caller's context. */
  lemma PlainCallOutcome(env: Env, w: World, l: Locals, call: Call)
    requires ValidEnv(env) && WellFormed(w) && env.retrier.None?
    ensures RunCall(env, w, l, call)
         == match call case TxCall(_, _) => RunTx(env, w, l, call) case NoTxCall(_, _) => RunNoTx(env, w, l, call)
  {
    hide RunTx, RunNoTx;
  }

  /** A caller whose context is done gets no attempt, and the reason. */
  lemma DoneAtEntry(env: Env, w: World, l: Locals, call: Call, id: nat)
    requires ValidEnv(env) && WellFormed(w) && env.retrier.Some?
    requires (if call.TxCall? then call.txOpts.ctx else call.noTxOpts.ctx) == Some(Caller(id))
    requires env.done(id, |w.trace|).Some?
    ensures History(env, w, l, call) == []
    ensures RunCall(env, w, l, call) == CallResult(w, None, Some(Error(Retry, [
              match env.done(id, |w.trace|).value
              case CtxCanceled => Error(Canceled, [])
              case CtxDeadline => Error(DeadlineExceeded, [])])))
  {
    hide RunCall, History;
    RetriedCallOutcome(env, w, l, call);
  }

  /** A context done when a retryable attempt ends stops the loop there, and the caller gets the reason instead of
      the attempt's error. */
  lemma DoneAfterAttempt(env: Env, w: World, l: Locals, call: Call, id: nat, k: nat)
    requires ValidEnv(env) && WellFormed(w) && env.retrier.Some?
    requires (if call.TxCall? then call.txOpts.ctx else call.noTxOpts.ctx) == Some(Caller(id))
    requires k < |History(env, w, l, call)|
    requires var a := History(env, w, l, call)[k].result;
             a.err.Some? && NeedRetry(a.err.value) && env.done(id, |a.w.trace|).Some?
    ensures var atts := History(env, w, l, call);
            var a := atts[k].result;
            var why := env.done(id, |a.w.trace|).value;
            && k == |atts| - 1
            && RunCall(env, w, l, call) == CallResult(a.w.(trace := a.w.trace + [WaitCut(why)]), None,
                 Some(Error(Retry, [Error(if why.CtxCanceled? then Canceled else DeadlineExceeded, [])])))
  {
    hide RunCall, History, NeedRetry, WaitsFor;
    RetriedCallOutcome(env, w, l, call);
    var atts := History(env, w, l, call);
    assert k < |atts| - 1 ==> GoesOnAfter(env, call, atts[k]);
  }

  /** Without a caller's context nothing cuts the loop short: it stops at a success, at an error not worth a retry,
      or when the delays are used up, and the error is the last attempt's. */
  lemma NilContextNeverCut(env: Env, w: World, l: Locals, call: Call)
    requires ValidEnv(env) && WellFormed(w) && env.retrier.Some?
    requires (if call.TxCall? then call.txOpts.ctx else call.noTxOpts.ctx) in {None, Some(Background)}
    ensures var atts, r := History(env, w, l, call), RunCall(env, w, l, call);
            && atts != []
            && match Last(atts).result.err
               case None => r.err == None
               case Some(e) =>
                 && r.err == Some(Error(Retry, [e]))
                 && (!NeedRetry(e) || |atts| == |env.retrier.value.retryDelays|)
  {
    hide RunCall, History, NeedRetry, WaitsFor;
    RetriedCallOutcome(env, w, l, call);
  }
}
