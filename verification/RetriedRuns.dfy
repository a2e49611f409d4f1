/** Whole retried runs: which attempts there are, how they end, and what the caller is told. */
module RetriedRuns {
  import opened Options
  import opened Errors
  import opened World
  import opened Interpreter
  import Retrier

  /** One attempt: the world it started in and what came of it. */
  datatype Att = Att(start: World, result: CallResult)

  predicate Retryable(err: Option<Error>) {
    err.Some? && NeedRetry(err.value)
  }

  /** The attempts of the retry loop from its i-th round on. */
  ghost function Attempts(env: Env, w: World, l: Locals, call: Call, i: nat): seq<Att>
    requires ValidEnv(env) && WellFormed(w)
    requires env.retrier.Some? && i < Budget(env)
    decreases Budget(env) - i
  {
    if ErrOf(env, CallCtx(call), Now(w)).Some? then []
    else
      var a := Attempt(env, w, l, call);
      [Att(w, a)] +
      (if !Retryable(a.err) || ErrOf(env, CallCtx(call), Now(a.w)).Some? || i + 1 == Budget(env) then []
       else Attempts(env, Log(a.w, Waited(Delay(env, a.w, i))), l, call, i + 1))
  }

  /** The attempts of a call, with or without a retrier. */
  ghost function History(env: Env, w: World, l: Locals, call: Call): seq<Att>
    requires ValidEnv(env) && WellFormed(w)
  {
    if env.retrier.None? then [Att(w, Attempt(env, w, l, call))] else Attempts(env, w, l, call, 0)
  }

  ghost predicate AliveAt(env: Env, call: Call, w: World) {
    ErrOf(env, CallCtx(call), Now(w)).None?
  }

  /** Each attempt starts from a live caller context; each but the last failed in a way worth retrying, the
      caller's context was still live then, and the next one starts after waiting that attempt's delay. */
  ghost predicate Chain(env: Env, w: World, l: Locals, call: Call, i: nat, atts: seq<Att>)
    requires ValidEnv(env) && env.retrier.Some?
  {
    && i + |atts| <= Budget(env)
    && (|atts| > 0 ==> atts[0].start == w)
    && (forall k :: 0 <= k < |atts| ==>
          && WellFormed(atts[k].start)
          && AliveAt(env, call, atts[k].start)
          && atts[k].result == Attempt(env, atts[k].start, l, call))
    && (forall k :: 0 <= k < |atts| - 1 ==> Waits(env, l, call, i + k, atts[k], atts[k + 1]))
  }

  ghost predicate Waits(env: Env, l: Locals, call: Call, i: nat, a: Att, b: Att)
    requires ValidEnv(env) && env.retrier.Some? && i < Budget(env)
  {
    && Retryable(a.result.err)
    && AliveAt(env, call, a.result.w)
    && b.start == Log(a.result.w, Waited(Delay(env, a.result.w, i)))
  }

  /** How the loop may end after its last attempt a, with what it tells. */
  ghost predicate Ends(env: Env, call: Call, i: nat, a: Att, r: CallResult)
    requires ValidEnv(env) && env.retrier.Some? && i < Budget(env)
  {
    if !Retryable(a.result.err) then r == a.result
    else if !AliveAt(env, call, a.result.w) then
      var reason := ErrOf(env, CallCtx(call), Now(a.result.w)).value;
      r.w == Log(a.result.w, WaitCut(reason)) && r.err == Some(CtxError(reason))
    else
      && r.w == Log(a.result.w, Waited(Delay(env, a.result.w, i)))
      && (if i + 1 == Budget(env) then r.err == a.result.err
          else !AliveAt(env, call, r.w) && r.err == Some(CtxError(ErrOf(env, CallCtx(call), Now(r.w)).value)))
  }

  /** The loop refines the declarative description of its attempts. */
  lemma {:induction false} DoRefines(env: Env, w: World, l: Locals, call: Call, i: nat, captured: Res)
    requires ValidEnv(env) && WellFormed(w)
    requires env.retrier.Some? && i < Budget(env)
    ensures var atts := Attempts(env, w, l, call, i);
            var r := Do(env, w, l, call, i, captured);
            && Chain(env, w, l, call, i, atts)
            && (atts == [] <==> !AliveAt(env, call, w))
            && (atts == [] ==> r == CallResult(w, captured, Some(CtxError(ErrOf(env, CallCtx(call), Now(w)).value))))
            && (atts != [] ==> Ends(env, call, i + |atts| - 1, atts[|atts| - 1], r)
                               && r.res == atts[|atts| - 1].result.res)
    decreases Budget(env) - i
  {
    hide Attempt, NeedRetry, Delay, Grows, Retrier.ValidRetrier;
    if AliveAt(env, call, w) {
      var a := Attempt(env, w, l, call);
      if Retryable(a.err) && AliveAt(env, call, a.w) && i + 1 < Budget(env) {
        var w1 := Log(a.w, Waited(Delay(env, a.w, i)));
        DoRefines(env, w1, l, call, i + 1, a.res);
        ChainCons(env, w, l, call, i, Attempts(env, w1, l, call, i + 1));
      }
    }
  }

  lemma ChainCons(env: Env, w: World, l: Locals, call: Call, i: nat, rest: seq<Att>)
    requires ValidEnv(env) && WellFormed(w) && env.retrier.Some? && i + 1 < Budget(env)
    requires var a := Attempt(env, w, l, call);
             && AliveAt(env, call, w) && Retryable(a.err) && AliveAt(env, call, a.w)
             && Chain(env, Log(a.w, Waited(Delay(env, a.w, i))), l, call, i + 1, rest)
    ensures Chain(env, w, l, call, i, [Att(w, Attempt(env, w, l, call))] + rest)
  {
    hide Attempt, NeedRetry, Delay, Grows, Retrier.ValidRetrier;
    var atts := [Att(w, Attempt(env, w, l, call))] + rest;
    forall k | 0 <= k < |atts| - 1 ensures Waits(env, l, call, i + k, atts[k], atts[k + 1]) {
      if k > 0 {
        assert Waits(env, l, call, i + 1 + (k - 1), rest[k - 1], rest[k]);
      }
    }
  }

  ghost function Last(atts: seq<Att>): Att
    requires atts != []
  {
    atts[|atts| - 1]
  }

  /** What a caller can rely on: at most as many attempts as the retrier has delays plus one, all but the last
      failed retryably, nil exactly when the last one succeeded, and otherwise its error or the context's. */
  lemma RetryContract(env: Env, w: World, l: Locals, call: Call)
    requires ValidEnv(env) && WellFormed(w)
    ensures var atts := History(env, w, l, call);
            var r := RunCall(env, w, l, call);
            && |atts| <= Budget(env)
            && (forall k :: 0 <= k < |atts| - 1 ==> Retryable(atts[k].result.err))
            && (r.err.None? <==> atts != [] && Last(atts).result.err.None?)
            && (env.retrier.Some? ==> (atts == [] <==> !AliveAt(env, call, w)))
            && (env.retrier.Some? && r.err.Some? ==>
                  || (atts != [] && r.err.value == Wrap(Retry, Last(atts).result.err.value))
                  || r.err.value in {Wrap(Retry, CtxError(CtxCanceled)), Wrap(Retry, CtxError(CtxDeadline))})
  {
    hide Attempt, NeedRetry, Delay, Do, Attempts;
    if env.retrier.Some? {
      DoRefines(env, w, l, call, 0, None);
      var atts := History(env, w, l, call);
      forall k | 0 <= k < |atts| - 1 ensures Retryable(atts[k].result.err) {
        assert Waits(env, l, call, 0 + k, atts[k], atts[k + 1]);
      }
    }
  }

  // ----- One attempt -----

  /** The attempt got a transaction; it is numbered after those that were there before. */
  predicate Began(env: Env, call: Call, start: World) {
    call.TxCall? && env.begin(Now(start)).None?
  }

  /** The world and the variables the job of an attempt starts with. */
  function JobStart(env: Env, l: Locals, call: Call, start: World): (World, Locals) {
    var l1 := BindCtx(l, |start.ctxs|);
    match call
    case TxCall(o, _) =>
      var raw := OrBackground(o.ctx);
      (OpenTx(env, start, o.(ctx := Some(raw)), raw), l1)
    case NoTxCall(o, _) =>
      var raw := OrBackground(o.ctx);
      (NewContext(start, raw, ProviderDB(env, o.(ctx := Some(raw)), Now(start)), None), l1)
  }

  /** What the job of an attempt did. */
  function JobOutcome(env: Env, l: Locals, call: Call, start: World): (World, Outcome)
    requires ValidEnv(env) && WellFormed(start)
    requires call.TxCall? ==> Began(env, call, start)
  {
    var (w, l1) := JobStart(env, l, call, start);
    Exec(env, w, l1, call.body)
  }

  /** The job, or the commit after it, panicked. */
  predicate PanickedIn(env: Env, l: Locals, call: Call, start: World)
    requires ValidEnv(env) && WellFormed(start)
  {
    if call.TxCall? && !Began(env, call, start) then false
    else
      var (w, o) := JobOutcome(env, l, call, start);
      o.Panicked? || (call.TxCall? && o.err.None? && env.commit(Now(w)).CommitPanics?)
  }

  /** Of an attempt that got a transaction, that transaction is committed exactly when the attempt succeeds,
      and discarded otherwise. */
  lemma TransactionEnds(env: Env, l: Locals, call: Call, start: World)
    requires ValidEnv(env) && WellFormed(start) && Began(env, call, start)
    ensures var r := RunTx(env, start, l, call);
            && |start.txs| < |r.w.txs|
            && r.w.txs[|start.txs|].status == if r.err.None? then Committed else Discarded
  {
    var raw := OrBackground(call.txOpts.ctx);
    var w1 := OpenTx(env, start, call.txOpts.(ctx := Some(raw)), raw);
    var (w2, o) := JobOutcome(env, l, call, start);
    assert TxGrows(w1.txs[|start.txs|], w2.txs[|start.txs|]);
  }

  /** Success returns what the job returned, failure of a transactional attempt returns no result. */
  lemma AttemptEnds(env: Env, l: Locals, call: Call, start: World)
    requires ValidEnv(env) && WellFormed(start)
    ensures var r := Attempt(env, start, l, call);
            && (call.TxCall? && r.err.None? ==> Began(env, call, start))
            && (call.TxCall? && r.err.Some? ==> r.res.None?)
            && (r.err.None? ==> JobOutcome(env, l, call, start).1 == Returned(r.res, None))
            && (Began(env, call, start) ==>
                  && |start.txs| < |r.w.txs|
                  && r.w.txs[|start.txs|].status == if r.err.None? then Committed else Discarded)
  {
    hide Grows, WellFormed, Exec, Retrier.ValidRetrier;
    var r := Attempt(env, start, l, call);
    assert r == if call.TxCall? then RunTx(env, start, l, call) else RunNoTx(env, start, l, call);
    if Began(env, call, start) {
      TransactionEnds(env, l, call, start);
    }
  }

  /** A panic's error, alone or under a failed rollback, is final. */
  lemma PanicErrorFinal(v: PanicValue, quoted: Error)
    ensures !NeedRetry(Error(Panic(v), []))
    ensures !NeedRetry(Wrap(RollbackTx(quoted), Error(Panic(v), [])))
  {
    hide NeedRetry;
    PanicNeverRetried(v, []);
    WrapKeepsNeedRetry(RollbackTx(quoted), Error(Panic(v), []));
  }

  /** What the deferred part makes of an error: the same classification, no result beside it. */
  lemma DeferredError(env: Env, w: World, t: TxId, ch: ChanId, err: Error)
    requires t < |w.txs| && ch < |w.chans| && w.chans[ch]
    ensures var r := Deferred(env, w, t, ch, None, Some(err));
            && r.res.None? && r.err.Some?
            && (r.err.value == err || (r.err.value.kind.RollbackTx? && r.err.value == Wrap(r.err.value.kind, err)))
  {
    hide Finishes;
  }

  lemma PanickedEndFails(env: Env, w: World, t: TxId, ch: ChanId, o: Outcome)
    requires t < |w.txs| && ch < |w.chans| && w.chans[ch] && w.txs[t].status == Active
    requires o.Panicked? || (o.err.None? && env.commit(Now(w)).CommitPanics?)
    ensures var r := FinishTx(env, w, t, ch, o);
            r.err.Some? && r.res.None? && !NeedRetry(r.err.value)
  {
    hide NeedRetry, Finishes, Deferred;
    var r := FinishTx(env, w, t, ch, o);
    var v := if o.Panicked? then o.value else env.commit(Now(w)).value;
    var w1 := if o.Panicked? then w else Commit(env, w, t);
    var p := Error(Panic(v), []);
    DeferredError(env, w1, t, ch, p);
    var q := if r.err.value == p then INVALID_CONTEXT else r.err.value.kind.quoted;
    PanicErrorFinal(v, q);
  }

  lemma PanickedNoTxFails(env: Env, l: Locals, call: Call, start: World)
    requires ValidEnv(env) && WellFormed(start) && call.NoTxCall? && PanickedIn(env, l, call, start)
    ensures var r := RunNoTx(env, start, l, call);
            r.err.Some? && r.res.None? && !NeedRetry(r.err.value)
  {
    hide NeedRetry, Exec, Grows, ValidEnv;
    PanicErrorFinal(JobOutcome(env, l, call, start).1.value, INVALID_CONTEXT);
  }

  lemma PanickedTxFails(env: Env, l: Locals, call: Call, start: World)
    requires ValidEnv(env) && WellFormed(start) && call.TxCall? && PanickedIn(env, l, call, start)
    ensures var r := RunTx(env, start, l, call);
            r.err.Some? && r.res.None? && !NeedRetry(r.err.value)
  {
    hide NeedRetry, Exec, Grows, ValidEnv, FinishTx;
    var w1 := JobStart(env, l, call, start).0;
    var (w2, o) := JobOutcome(env, l, call, start);
    TransactionStaysActive(w1, w2, |start.txs|);
    ChannelStaysOpen(w1, w2, |start.chans|);
    PanickedEndFails(env, w2, |start.txs|, |start.chans|, o);
  }

  lemma PanickedAttemptFails(env: Env, l: Locals, call: Call, start: World)
    requires ValidEnv(env) && WellFormed(start) && PanickedIn(env, l, call, start)
    ensures var r := Attempt(env, start, l, call);
            r.err.Some? && r.res.None? && !NeedRetry(r.err.value)
  {
    hide NeedRetry, RunTx, RunNoTx, Grows, PanickedIn;
    if call.TxCall? {
      PanickedTxFails(env, l, call, start);
    } else {
      PanickedNoTxFails(env, l, call, start);
    }
  }

  /** The error an attempt goes back to: what begin, the job or the commit answered. Panics have none. */
  function Cause(env: Env, l: Locals, call: Call, start: World): Option<Error>
    requires ValidEnv(env) && WellFormed(start)
  {
    if call.TxCall? && !Began(env, call, start) then env.begin(Now(start))
    else
      var (w, o) := JobOutcome(env, l, call, start);
      if o.Panicked? then None
      else if o.err.Some? || call.NoTxCall? then o.err
      else
        match env.commit(Now(w))
        case CommitFails(e) => Some(e)
        case _ => None
  }

  /** Whether an attempt is retried is decided by its cause alone: not by the library's wrapping, and not by how
      its rollback went. */
  lemma ClassifiedByCause(env: Env, l: Locals, call: Call, start: World)
    requires ValidEnv(env) && WellFormed(start)
    ensures Retryable(Attempt(env, start, l, call).err) <==> Retryable(Cause(env, l, call, start))
  {
    hide Grows, WellFormed, Exec, Retrier.ValidRetrier, NeedRetry;
    var r := Attempt(env, start, l, call);
    assert r == if call.TxCall? then RunTx(env, start, l, call) else RunNoTx(env, start, l, call);
    if PanickedIn(env, l, call, start) {
      PanickedAttemptFails(env, l, call, start);
    } else if call.TxCall? {
      if !Began(env, call, start) {
        WrapKeepsNeedRetry(BeginTx, env.begin(Now(start)).value);
      } else {
        TxClassifiedByCause(env, l, call, start);
      }
    }
  }

  lemma TxClassifiedByCause(env: Env, l: Locals, call: Call, start: World)
    requires ValidEnv(env) && WellFormed(start) && Began(env, call, start) && !PanickedIn(env, l, call, start)
    ensures Retryable(RunTx(env, start, l, call).err) <==> Retryable(Cause(env, l, call, start))
  {
    hide Grows, Exec, Retrier.ValidRetrier, NeedRetry;
    var r := RunTx(env, start, l, call);
    var cause := Cause(env, l, call, start);
    var (w, o) := JobOutcome(env, l, call, start);
    if cause.Some? {
      var plain := if o.err.Some? then cause.value else Wrap(CommitTx, cause.value);
      WrapKeepsNeedRetry(CommitTx, cause.value);
      var k := r.err.value.kind;
      if r.err.value != plain {
        WrapKeepsNeedRetry(k, plain);
      }
    }
  }

  // ----- All attempts of a run -----

  /** The world only grows from the call to each attempt, through it, and on to the end. */
  lemma {:induction false} AttemptsGrow(env: Env, w: World, l: Locals, call: Call, i: nat, captured: Res, k: nat)
    requires ValidEnv(env) && WellFormed(w) && env.retrier.Some? && i < Budget(env)
    requires k < |Attempts(env, w, l, call, i)|
    ensures var a := Attempts(env, w, l, call, i)[k];
            && WellFormed(a.start)
            && a.result == Attempt(env, a.start, l, call)
            && Grows(w, a.start)
            && Grows(a.result.w, Do(env, w, l, call, i, captured).w)
    decreases Budget(env) - i
  {
    hide Attempt, NeedRetry, Delay, Retrier.ValidRetrier, Grows;
    var a := Attempt(env, w, l, call);
    var w1 := Log(a.w, Waited(Delay(env, a.w, i)));
    GrowsItself(w);
    GrowsItself(a.w);
    LogGrows(a.w, a.w);
    if k > 0 {
      AttemptsGrow(env, w1, l, call, i + 1, a.res, k - 1);
      GrowsTransitive(w, a.w, w1);
      GrowsTransitive(w, w1, Attempts(env, w, l, call, i)[k].start);
    } else if Retryable(a.err) && AliveAt(env, call, a.w) && i + 1 < Budget(env) {
      GrowsTransitive(a.w, w1, Do(env, w1, l, call, i + 1, a.res).w);
    }
  }

  lemma HistoryGrows(env: Env, w: World, l: Locals, call: Call, k: nat)
    requires ValidEnv(env) && WellFormed(w) && k < |History(env, w, l, call)|
    ensures var a := History(env, w, l, call)[k];
            && WellFormed(a.start)
            && a.result == Attempt(env, a.start, l, call)
            && Grows(w, a.start)
            && Grows(a.result.w, RunCall(env, w, l, call).w)
  {
    if env.retrier.Some? {
      AttemptsGrow(env, w, l, call, 0, None, k);
    }
  }

  /** Committed at most once, and exactly when the caller sees no error: in the end the transaction of every
      attempt that began one is discarded, but for the last attempt's when the call returns nil. */
  lemma CommittedExactlyOnSuccess(env: Env, w: World, l: Locals, call: Call, k: nat)
    requires ValidEnv(env) && WellFormed(w) && k < |History(env, w, l, call)|
    ensures var atts := History(env, w, l, call);
            var r := RunCall(env, w, l, call);
            var t := |atts[k].start.txs|;
            && (call.TxCall? && r.err.None? ==> Began(env, call, Last(atts).start))
            && (Began(env, call, atts[k].start) ==>
                  && |w.txs| <= t < |r.w.txs|
                  && (r.w.txs[t].status == Committed <==> r.err.None? && k == |atts| - 1)
                  && (r.w.txs[t].status == Discarded <==> r.err.Some? || k < |atts| - 1))
  {
    hide Attempt, NeedRetry, Delay, Retrier.ValidRetrier, RunCall, History;
    var atts := History(env, w, l, call);
    RetryContract(env, w, l, call);
    HistoryGrows(env, w, l, call, k);
    HistoryGrows(env, w, l, call, |atts| - 1);
    AttemptEnds(env, l, call, atts[k].start);
    AttemptEnds(env, l, call, Last(atts).start);
    if Began(env, call, atts[k].start) {
      assert TxGrows(atts[k].result.w.txs[|atts[k].start.txs|], RunCall(env, w, l, call).w.txs[|atts[k].start.txs|]);
    }
  }

  /** Every context of w' on a channel made since w refuses. */
  ghost predicate ContextsDead(w: World, w': World)
    requires WellFormed(w')
  {
    forall c :: 0 <= c < |w'.ctxs| && w'.ctxs[c].ch >= |w.chans| ==> !w'.chans[w'.ctxs[c].ch]
  }

  ghost predicate TransactionsOver(w: World, w': World) {
    forall t :: |w.txs| <= t < |w'.txs| ==> Over(w'.txs[t])
  }

  /** When an attempt begins, and after the whole run, every context any attempt made or derived is dead and
      every transaction any attempt began is over: at most one attempt's context is ever open. */
  lemma AttemptsAreIsolated(env: Env, w: World, l: Locals, call: Call, k: nat)
    requires ValidEnv(env) && WellFormed(w) && k < |History(env, w, l, call)|
    ensures var a := History(env, w, l, call)[k];
            var r := RunCall(env, w, l, call);
            && WellFormed(a.start) && ContextsDead(w, a.start) && TransactionsOver(w, a.start)
            && ContextsDead(w, r.w) && TransactionsOver(w, r.w)
  {
    HistoryGrows(env, w, l, call, k);
    WellFormedDead(w, History(env, w, l, call)[k].start);
    WellFormedDead(w, RunCall(env, w, l, call).w);
  }

  lemma WellFormedDead(w: World, w': World)
    requires WellFormed(w') && Grows(w, w')
    ensures ContextsDead(w, w')
  {
  }

  /** A panic, of the job or of the commit, with whatever value, ends the run: it is the last attempt, the
      caller gets an error and no result, and the transaction is discarded. */
  lemma PanicEndsRun(env: Env, w: World, l: Locals, call: Call, k: nat)
    requires ValidEnv(env) && WellFormed(w) && k < |History(env, w, l, call)|
    requires WellFormed(History(env, w, l, call)[k].start)
    requires PanickedIn(env, l, call, History(env, w, l, call)[k].start)
    ensures var atts := History(env, w, l, call);
            var r := RunCall(env, w, l, call);
            && k == |atts| - 1
            && r.err.Some? && r.res.None?
            && (call.TxCall? ==> |atts[k].start.txs| < |r.w.txs|
                                 && r.w.txs[|atts[k].start.txs|].status == Discarded)
  {
    hide Attempt, NeedRetry, Delay, Retrier.ValidRetrier, Do, Attempts, JobOutcome;
    var a := History(env, w, l, call)[k];
    HistoryGrows(env, w, l, call, k);
    PanickedAttemptFails(env, l, call, a.start);
    RetryContract(env, w, l, call);
    CommittedExactlyOnSuccess(env, w, l, call, k);
  }

  /** The job comes, statement by statement and over whole nested runs, from one point to another. */
  ghost predicate Leads(env: Env, w: World, l: Locals, job: Job, w': World, l': Locals, job': Job)
    requires ValidEnv(env) && WellFormed(w)
    decreases job
  {
    || (w' == w && l' == l && job' == job)
    || (if job.Run? then
          var c := RunCall(env, w, l, job.call);
          Leads(env, c.w, BindReturn(l, c), job.next, w', l', job')
        else
          var (w1, p) := Act(env, w, l, job);
          p.GoesOn? && Leads(env, w1, p.locals, p.next, w', l', job'))
  }

  /** What a job does in the end is what it does from any point it comes to. */
  lemma {:induction false} LeadsToSameOutcome(env: Env, w: World, l: Locals, job: Job, w': World, l': Locals, job': Job)
    requires ValidEnv(env) && WellFormed(w) && Leads(env, w, l, job, w', l', job')
    ensures WellFormed(w') && Exec(env, w, l, job) == Exec(env, w', l', job')
    decreases job
  {
    hide RunCall, Grows;
    if w' != w || l' != l || job' != job {
      if job.Run? {
        var c := RunCall(env, w, l, job.call);
        LeadsToSameOutcome(env, c.w, BindReturn(l, c), job.next, w', l', job');
      } else {
        var (w1, p) := Act(env, w, l, job);
        LeadsToSameOutcome(env, w1, p.locals, p.next, w', l', job');
      }
    }
  }

  /** The statement asks a context, whoever made it, that is dead, that has no DB, or that does not exist. */
  ghost predicate AsksInVain(env: Env, w: World, l: Locals, job: Job)
    requires WellFormed(w)
  {
    && job.GetDB?
    && match CtxOf(env, w, l, job.ctx)
       case None => true
       case Some(c) => !w.chans[w.ctxs[c].ch] || w.ctxs[c].db.None?
  }

  /** The job of an attempt comes to ask such a context: an old one, one leaked by a run nested in it, or one
      derived where there is no fallback DB. */
  ghost predicate ComesToAskInVain(env: Env, l: Locals, call: Call, start: World, w: World, l1: Locals, job: Job)
    requires ValidEnv(env) && WellFormed(start)
  {
    var (w0, l0) := JobStart(env, l, call, start);
    && Leads(env, w0, l0, call.body, w, l1, job)
    && WellFormed(w) && AsksInVain(env, w, l1, job)
  }

  /** Using a dead context, or one without a DB, at any point of any attempt's job, fails the run around it for good:
      no attempt follows, the caller gets an error and no result, and the transaction is discarded. */
  lemma DeadContextFailsRun(env: Env, w: World, l: Locals, call: Call, k: nat, w': World, l': Locals, job': Job)
    requires ValidEnv(env) && WellFormed(w) && k < |History(env, w, l, call)|
    requires var start := History(env, w, l, call)[k].start;
             && WellFormed(start)
             && (call.TxCall? ==> Began(env, call, start))
             && ComesToAskInVain(env, l, call, start, w', l', job')
    ensures var atts := History(env, w, l, call);
            var r := RunCall(env, w, l, call);
            && k == |atts| - 1
            && r.err.Some? && r.res.None?
            && (call.TxCall? ==> |atts[k].start.txs| < |r.w.txs|
                                 && r.w.txs[|atts[k].start.txs|].status == Discarded)
  {
    hide RunCall, History, Grows;
    var start := History(env, w, l, call)[k].start;
    var (w0, l0) := JobStart(env, l, call, start);
    LeadsToSameOutcome(env, w0, l0, call.body, w', l', job');
    assert Exec(env, w', l', job').1.Panicked?;
    PanicEndsRun(env, w, l, call, k);
  }

  /** The result is the last attempt's, exactly as its job returned it; under a retrier every error comes
      without a result. */
  lemma ResultProvenance(env: Env, w: World, l: Locals, call: Call)
    requires ValidEnv(env) && WellFormed(w)
    ensures var atts := History(env, w, l, call);
            var r := RunCall(env, w, l, call);
            && (r.err.None? ==>
                  && atts != [] && WellFormed(Last(atts).start)
                  && (call.TxCall? ==> Began(env, call, Last(atts).start))
                  && JobOutcome(env, l, call, Last(atts).start).1 == Returned(r.res, None))
            && (r.err.Some? && (env.retrier.Some? || call.TxCall?) ==> r.res.None?)
  {
    hide Attempt, NeedRetry, Delay, Do, Attempts, JobOutcome, Grows;
    var atts := History(env, w, l, call);
    RetryContract(env, w, l, call);
    if env.retrier.Some? {
      DoRefines(env, w, l, call, 0, None);
    }
    if atts != [] {
      HistoryGrows(env, w, l, call, |atts| - 1);
      AttemptEnds(env, l, call, Last(atts).start);
    }
  }

  lemma PlainNoTxPassesBoth(env: Env, w: World, l: Locals, call: Call)
    requires ValidEnv(env) && WellFormed(w) && env.retrier.None? && call.NoTxCall?
    ensures var r := RunCall(env, w, l, call);
            var o := JobOutcome(env, l, call, w).1;
            if o.Panicked? then r.err == Some(Error(Panic(o.value), [])) && r.res.None?
            else Returned(r.res, r.err) == o
  {
    assert RunCall(env, w, l, call) == Attempt(env, w, l, call) == RunNoTx(env, w, l, call);
  }

  /** Exactly when an error comes with a result: without a retrier, without a transaction, from a job that
      returns both. */
  lemma ErrorWithResult(env: Env, w: World, l: Locals, call: Call)
    requires ValidEnv(env) && WellFormed(w)
    ensures var r := RunCall(env, w, l, call);
            r.err.Some? && r.res.Some? <==>
              && env.retrier.None? && call.NoTxCall?
              && var o := JobOutcome(env, l, call, w).1; o.Returned? && o.err.Some? && o.res.Some?
  {
    hide RunCall, JobOutcome;
    ResultProvenance(env, w, l, call);
    if env.retrier.None? && call.NoTxCall? {
      PlainNoTxPassesBoth(env, w, l, call);
    }
  }
}
