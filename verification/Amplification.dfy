/** How often nested retrying runs can invoke the code inside them. */
module Amplification {
  import opened Options
  import opened Errors
  import opened World
  import opened Interpreter
  import opened RetriedRuns

  /** How often a trace invokes the code tagged so. */
  function Invocations(tr: seq<Event>, tag: nat): nat {
    if tr == [] then 0
    else Invocations(tr[..|tr| - 1], tag) + (if tr[|tr| - 1] == Invoked(tag) then 1 else 0)
  }

  lemma InvocationsStep(tr: seq<Event>, e: Event, tag: nat)
    ensures Invocations(tr + [e], tag) == Invocations(tr, tag) + (if e == Invoked(tag) then 1 else 0)
  {
    assert (tr + [e])[..|tr|] == tr;
  }

  function Max(a: int, b: int): int {
    if a > b then a else b
  }

  /** Read off the program: nesting multiplies by the budget, sequence adds, a choice takes the worst. */
  function Bound(budget: nat, job: Job, tag: nat): nat {
    match job
    case Return(_, _) => 0
    case Raise(_) => 0
    case GetDB(_, next) => Bound(budget, next, tag)
    case DeriveNoTx(_, next) => Bound(budget, next, tag)
    case Write(_, _, next) => Bound(budget, next, tag)
    case IfError(_, failed, passed) => Max(Bound(budget, failed, tag), Bound(budget, passed, tag))
    case Invoke(t, branches) => (if t == tag then 1 else 0) + BoundAny(budget, branches, tag)
    case Run(call, next) => budget * Bound(budget, call.body, tag) + Bound(budget, next, tag)
  }

  function BoundAny(budget: nat, branches: seq<Job>, tag: nat): (r: nat)
    ensures forall i :: 0 <= i < |branches| ==> Bound(budget, branches[i], tag) <= r
  {
    if branches == [] then 0 else Max(Bound(budget, branches[0], tag), BoundAny(budget, branches[1..], tag))
  }

  lemma ActInvocations(env: Env, w: World, l: Locals, job: Job, tag: nat)
    requires WellFormed(w) && !job.Run?
    ensures var (w1, p) := Act(env, w, l, job);
            Invocations(w1.trace, tag) + (if p.GoesOn? then Bound(Budget(env), p.next, tag) else 0)
            <= Invocations(w.trace, tag) + Bound(Budget(env), job, tag)
  {
    hide Invocations;
    var w1 := Act(env, w, l, job).0;
    if w1.trace != w.trace {
      InvocationsStep(w.trace, w1.trace[|w.trace|], tag);
      assert w1.trace == w.trace + [w1.trace[|w.trace|]];
    }
  }

  lemma {:induction false} ExecInvocations(env: Env, w: World, l: Locals, job: Job, tag: nat)
    requires ValidEnv(env) && WellFormed(w)
    ensures Invocations(Exec(env, w, l, job).0.trace, tag) <= Invocations(w.trace, tag) + Bound(Budget(env), job, tag)
    decreases job, 0
  {
    hide Invocations, RunCall, Grows;
    if job.Run? {
      var c := RunCall(env, w, l, job.call);
      RunCallInvocations(env, w, l, job.call, tag);
      ExecInvocations(env, c.w, BindReturn(l, c), job.next, tag);
    } else {
      var (w1, p) := Act(env, w, l, job);
      ActInvocations(env, w, l, job, tag);
      if p.GoesOn? {
        ExecInvocations(env, w1, p.locals, p.next, tag);
      }
    }
  }

  lemma {:induction false} AttemptInvocations(env: Env, w: World, l: Locals, call: Call, tag: nat)
    requires ValidEnv(env) && WellFormed(w)
    ensures Invocations(Attempt(env, w, l, call).w.trace, tag)
         <= Invocations(w.trace, tag) + Bound(Budget(env), call.body, tag)
    decreases call, 1
  {
    hide Invocations, Grows;
    var r := Attempt(env, w, l, call);
    if call.NoTxCall? {
      assert r == RunNoTx(env, w, l, call);
      var raw := OrBackground(call.noTxOpts.ctx);
      var w1 := NewContext(w, raw, ProviderDB(env, call.noTxOpts.(ctx := Some(raw)), Now(w)), None);
      var w2 := Exec(env, w1, BindCtx(l, |w.ctxs|), call.body).0;
      InvocationsStep(w.trace, w1.trace[|w.trace|], tag);
      ExecInvocations(env, w1, BindCtx(l, |w.ctxs|), call.body, tag);
      InvocationsStep(w2.trace, Closed(|w.chans|), tag);
    } else {
      assert r == RunTx(env, w, l, call);
      var raw := OrBackground(call.txOpts.ctx);
      var opts := call.txOpts.(ctx := Some(raw));
      if env.begin(Now(w)).Some? {
        InvocationsStep(w.trace, r.w.trace[|w.trace|], tag);
      } else {
        var w0, w1 := Begin(w, opts), OpenTx(env, w, opts, raw);
        InvocationsStep(w.trace, w0.trace[|w.trace|], tag);
        InvocationsStep(w0.trace, w1.trace[|w0.trace|], tag);
        var (w2, o) := Exec(env, w1, BindCtx(l, |w.ctxs|), call.body);
        ExecInvocations(env, w1, BindCtx(l, |w.ctxs|), call.body, tag);
        TransactionStaysActive(w1, w2, |w.txs|);
        ChannelStaysOpen(w1, w2, |w.chans|);
        FinishTxInvocations(env, w2, |w.txs|, |w.chans|, o, tag);
      }
    }
  }

  lemma FinishTxInvocations(env: Env, w: World, t: TxId, ch: ChanId, o: Outcome, tag: nat)
    requires t < |w.txs| && ch < |w.chans| && w.chans[ch] && w.txs[t].status == Active
    ensures Invocations(FinishTx(env, w, t, ch, o).w.trace, tag) == Invocations(w.trace, tag)
  {
    hide Invocations;
    if o.Returned? && o.err.None? {
      var w1 := Commit(env, w, t);
      InvocationsStep(w.trace, w1.trace[|w.trace|], tag);
      DeferredInvocations(env, w1, t, ch, tag);
    } else {
      DeferredInvocations(env, w, t, ch, tag);
    }
  }

  lemma DeferredInvocations(env: Env, w: World, t: TxId, ch: ChanId, tag: nat)
    requires t < |w.txs| && ch < |w.chans| && w.chans[ch]
    ensures Invocations(Close(w, ch).trace, tag) == Invocations(w.trace, tag)
    ensures Invocations(Close(Rollback(env, w, t), ch).trace, tag) == Invocations(w.trace, tag)
  {
    hide Invocations;
    var w1 := Rollback(env, w, t);
    InvocationsStep(w.trace, w1.trace[|w.trace|], tag);
    InvocationsStep(w.trace, Closed(ch), tag);
    InvocationsStep(w1.trace, Closed(ch), tag);
  }

  lemma OneMore(k: nat, b: nat)
    requires k > 0
    ensures k * b == b + (k - 1) * b >= b
  {
  }

  lemma {:induction false} DoInvocations(env: Env, w: World, l: Locals, call: Call, i: nat, captured: Res, tag: nat)
    requires ValidEnv(env) && WellFormed(w)
    requires env.retrier.Some? && i < Budget(env)
    ensures Invocations(Do(env, w, l, call, i, captured).w.trace, tag)
         <= Invocations(w.trace, tag) + (Budget(env) - i) * Bound(Budget(env), call.body, tag)
    decreases call, 2, Budget(env) - i
  {
    hide Invocations, Grows, Attempt, NeedRetry, Delay, Bound;
    var b := Bound(Budget(env), call.body, tag);
    AttemptInvocations(env, w, l, call, tag);
    var a := Attempt(env, w, l, call);
    OneMore(Budget(env) - i, b);
    var cut := ErrOf(env, CallCtx(call), Now(a.w));
    if cut.Some? {
      InvocationsStep(a.w.trace, WaitCut(cut.value), tag);
    } else {
      var e := Waited(Delay(env, a.w, i));
      InvocationsStep(a.w.trace, e, tag);
      if i + 1 < Budget(env) {
        DoInvocations(env, Log(a.w, e), l, call, i + 1, a.res, tag);
      }
    }
  }

  /** A call invokes tagged code at most as often as its program's bound says, times the retry budget. */
  lemma {:induction false} RunCallInvocations(env: Env, w: World, l: Locals, call: Call, tag: nat)
    requires ValidEnv(env) && WellFormed(w)
    ensures Invocations(RunCall(env, w, l, call).w.trace, tag)
         <= Invocations(w.trace, tag) + Budget(env) * Bound(Budget(env), call.body, tag)
    decreases call, 3
  {
    hide Invocations, Grows, Attempt, Do, Bound;
    if env.retrier.None? {
      AttemptInvocations(env, w, l, call, tag);
    } else {
      DoInvocations(env, w, l, call, 0, None, tag);
    }
  }

  // ----- Code reached once per enclosing body -----

  function Power(b: nat, e: nat): nat {
    if e == 0 then 1 else b * Power(b, e - 1)
  }

  /** No path through the job gets to the tagged code. */
  predicate Silent(job: Job, tag: nat) {
    match job
    case Return(_, _) => true
    case Raise(_) => true
    case GetDB(_, next) => Silent(next, tag)
    case DeriveNoTx(_, next) => Silent(next, tag)
    case Write(_, _, next) => Silent(next, tag)
    case IfError(_, failed, passed) => Silent(failed, tag) && Silent(passed, tag)
    case Invoke(t, branches) => t != tag && forall i :: 0 <= i < |branches| ==> Silent(branches[i], tag)
    case Run(call, next) => Silent(call.body, tag) && Silent(next, tag)
  }

  predicate AtMostOnce(job: Job, tag: nat, d: nat)
    decreases job, 1
  {
    Silent(job, tag) || Once(job, tag, d)
  }

  /** Some path through the job gets to the tagged code, no path gets there twice, and it always lies in the body
      of d nested runs, whatever their options and whatever else the bodies around it do. */
  predicate Once(job: Job, tag: nat, d: nat)
    decreases job, 0
  {
    match job
    case Return(_, _) => false
    case Raise(_) => false
    case GetDB(_, next) => Once(next, tag, d)
    case DeriveNoTx(_, next) => Once(next, tag, d)
    case Write(_, _, next) => Once(next, tag, d)
    case IfError(_, failed, passed) =>
      && (Once(failed, tag, d) || Once(passed, tag, d))
      && AtMostOnce(failed, tag, d) && AtMostOnce(passed, tag, d)
    case Invoke(t, branches) =>
      if t == tag then d == 0 && forall i :: 0 <= i < |branches| ==> Silent(branches[i], tag)
      else
        && (exists i :: 0 <= i < |branches| && Once(branches[i], tag, d))
        && forall i :: 0 <= i < |branches| ==> AtMostOnce(branches[i], tag, d)
    case Run(call, next) =>
      || (Silent(call.body, tag) && Once(next, tag, d))
      || (d > 0 && Once(call.body, tag, d - 1) && Silent(next, tag))
  }

  lemma {:induction false} SilentBound(budget: nat, job: Job, tag: nat)
    requires Silent(job, tag)
    ensures Bound(budget, job, tag) == 0
  {
    match job
    case Return(_, _) =>
    case Raise(_) =>
    case GetDB(_, next) => SilentBound(budget, next, tag);
    case DeriveNoTx(_, next) => SilentBound(budget, next, tag);
    case Write(_, _, next) => SilentBound(budget, next, tag);
    case IfError(_, failed, passed) =>
      SilentBound(budget, failed, tag);
      SilentBound(budget, passed, tag);
    case Invoke(_, branches) =>
      forall i | 0 <= i < |branches| ensures Bound(budget, branches[i], tag) == 0 {
        SilentBound(budget, branches[i], tag);
      }
      WorstBranch(budget, branches, tag);
    case Run(call, next) =>
      SilentBound(budget, call.body, tag);
      SilentBound(budget, next, tag);
  }

  /** The worst branch is one of the branches. */
  lemma {:induction false} WorstBranch(budget: nat, branches: seq<Job>, tag: nat)
    ensures var worst := BoundAny(budget, branches, tag);
            worst == 0 || exists i :: 0 <= i < |branches| && Bound(budget, branches[i], tag) == worst
  {
    if branches != [] && BoundAny(budget, branches, tag) > Bound(budget, branches[0], tag) {
      WorstBranch(budget, branches[1..], tag);
      var i :| 0 <= i < |branches| - 1 && Bound(budget, branches[1..][i], tag) == BoundAny(budget, branches[1..], tag);
      assert branches[i + 1] == branches[1..][i];
    }
  }

  lemma {:induction false} AtMostOnceBound(budget: nat, job: Job, tag: nat, d: nat)
    requires AtMostOnce(job, tag, d)
    ensures Bound(budget, job, tag) == if Once(job, tag, d) then Power(budget, d) else 0
    decreases job, 1
  {
    if Once(job, tag, d) {
      OnceBound(budget, job, tag, d);
    } else {
      SilentBound(budget, job, tag);
    }
  }

  /** Each of the d runs around the code multiplies by the budget, and nothing else counts. */
  lemma {:induction false} OnceBound(budget: nat, job: Job, tag: nat, d: nat)
    requires Once(job, tag, d)
    ensures Bound(budget, job, tag) == Power(budget, d)
    decreases job, 0
  {
    match job
    case GetDB(_, next) => OnceBound(budget, next, tag, d);
    case DeriveNoTx(_, next) => OnceBound(budget, next, tag, d);
    case Write(_, _, next) => OnceBound(budget, next, tag, d);
    case IfError(_, failed, passed) =>
      AtMostOnceBound(budget, failed, tag, d);
      AtMostOnceBound(budget, passed, tag, d);
    case Invoke(t, branches) => OnceBoundInvoke(budget, t, branches, tag, d);
    case Run(call, next) =>
      if Silent(call.body, tag) && Once(next, tag, d) {
        SilentBound(budget, call.body, tag);
        OnceBound(budget, next, tag, d);
      } else {
        OnceBound(budget, call.body, tag, d - 1);
        SilentBound(budget, next, tag);
      }
  }

  lemma {:induction false} OnceBoundInvoke(budget: nat, t: nat, branches: seq<Job>, tag: nat, d: nat)
    requires Once(Invoke(t, branches), tag, d)
    ensures Bound(budget, Invoke(t, branches), tag) == Power(budget, d)
    decreases branches, 0
  {
    WorstBranch(budget, branches, tag);
    forall i | 0 <= i < |branches|
      ensures Bound(budget, branches[i], tag) == if t != tag && Once(branches[i], tag, d) then Power(budget, d) else 0
    {
      if t == tag {
        SilentBound(budget, branches[i], tag);
      } else {
        assert AtMostOnce(branches[i], tag, d);
        AtMostOnceBound(budget, branches[i], tag, d);
      }
    }
  }

  /** Code reached once per enclosing body, under d + 1 retrying runs, is invoked at most budget^(d+1) times. */
  lemma AmplificationBound(env: Env, w: World, l: Locals, call: Call, d: nat, tag: nat)
    requires ValidEnv(env) && WellFormed(w) && Once(call.body, tag, d)
    ensures Invocations(RunCall(env, w, l, call).w.trace, tag)
         <= Invocations(w.trace, tag) + Power(Budget(env), d + 1)
  {
    hide RunCall, Invocations, Bound;
    OnceBound(Budget(env), call.body, tag, d);
    RunCallInvocations(env, w, l, call, tag);
  }

  /** A budget used up inside counts as retryable outside, as it is or wrapped by the enclosing job. */
  lemma ExhaustionStaysRetryable(env: Env, w: World, l: Locals, call: Call, text: string)
    requires ValidEnv(env) && WellFormed(w) && env.retrier.Some?
    requires var atts := History(env, w, l, call);
             && |atts| == Budget(env) && Retryable(Last(atts).result.err)
             && AliveAt(env, call, Last(atts).result.w)
    ensures var r := RunCall(env, w, l, call);
            && r.err.Some?
            && NeedRetry(r.err.value)
            && NeedRetry(Wrap(Custom(text), r.err.value))
  {
    hide Attempt, NeedRetry, Delay, Do, Attempts, Grows;
    DoRefines(env, w, l, call, 0, None);
    var r := RunCall(env, w, l, call);
    WrapKeepsNeedRetry(Retry, Last(History(env, w, l, call)).result.err.value);
    WrapKeepsNeedRetry(Custom(text), r.err.value);
  }

  // ----- The bound is reached -----

  /** A job around body at depth d: d runs, each the whole job of the next, handing up a wrapped error. */
  function Nested(opts: TxOpts, body: Job, d: nat): Job {
    if d == 0 then body
    else Run(TxCall(opts, Nested(opts, body, d - 1)), Return(NilResult, WrappedVar("nested", 0)))
  }

  lemma {:induction false} NestedOnce(opts: TxOpts, body: Job, d: nat, tag: nat)
    requires Once(body, tag, 0)
    ensures Once(Nested(opts, body, d), tag, d)
  {
    if d == 0 {
    } else {
      NestedOnce(opts, body, d - 1, tag);
    }
  }

  /** Invokes the tagged code and fails with a lost connection. */
  function Failing(tag: nat): Job {
    Invoke(tag, [Return(NilResult, NewError(Error(EOF, [])))])
  }

  /** Transactions always begin and no context is ever done; commits and rollbacks may answer anything. */
  ghost predicate Cooperative(env: Env) {
    && env.retrier.Some?
    && (forall n :: env.begin(n).None?)
    && (forall c, n :: env.done(c, n).None?)
  }

  lemma EofNeedsRetry()
    ensures NeedRetry(Error(EOF, []))
  {
    assert Preorder(Error(EOF, [])) == [EOF];
    NeedRetryIsListPredicate(Error(EOF, []));
  }

  lemma {:induction false} FailingExec(env: Env, w: World, l: Locals, opts: TxOpts, d: nat, tag: nat)
    requires ValidEnv(env) && WellFormed(w) && Cooperative(env) && l.errs == []
    ensures var (w1, o) := Exec(env, w, l, Nested(opts, Failing(tag), d));
            && Invocations(w1.trace, tag) == Invocations(w.trace, tag) + Power(Budget(env), d)
            && o.Returned? && Retryable(o.err)
    decreases d, 2
  {
    hide Invocations, Grows, RunCall, NeedRetry;
    if d == 0 {
      var w1 := Log(w, Invoked(tag));
      InvocationsStep(w.trace, Invoked(tag), tag);
      var leaf := Return(NilResult, NewError(Error(EOF, [])));
      assert [leaf][env.input(Now(w)) % 1] == leaf;
      assert Exec(env, w1, l, leaf) == (w1, Returned(None, Some(Error(EOF, []))));
      EofNeedsRetry();
    } else {
      var call := TxCall(opts, Nested(opts, Failing(tag), d - 1));
      var c := RunCall(env, w, l, call);
      FailingRun(env, w, l, opts, d - 1, tag);
      var up := Return(NilResult, WrappedVar("nested", 0));
      assert BindReturn(l, c).errs == [c.err];
      assert Exec(env, c.w, BindReturn(l, c), up) == (c.w, Returned(None, Some(Wrap(Custom("nested"), c.err.value))));
      WrapKeepsNeedRetry(Custom("nested"), c.err.value);
    }
  }

  lemma {:induction false} FailingAttempt(env: Env, w: World, l: Locals, opts: TxOpts, d: nat, tag: nat)
    requires ValidEnv(env) && WellFormed(w) && Cooperative(env) && l.errs == []
    ensures var r := Attempt(env, w, l, TxCall(opts, Nested(opts, Failing(tag), d)));
            && Invocations(r.w.trace, tag) == Invocations(w.trace, tag) + Power(Budget(env), d)
            && Retryable(r.err)
    decreases d, 3
  {
    hide Invocations, Grows, NeedRetry, Nested, Power;
    var call := TxCall(opts, Nested(opts, Failing(tag), d));
    assert Attempt(env, w, l, call) == RunTx(env, w, l, call);
    var raw := OrBackground(opts.ctx);
    var o' := opts.(ctx := Some(raw));
    var w0, w1 := Begin(w, o'), OpenTx(env, w, o', raw);
    InvocationsStep(w.trace, w0.trace[|w.trace|], tag);
    InvocationsStep(w0.trace, w1.trace[|w0.trace|], tag);
    var l1 := BindCtx(l, |w.ctxs|);
    FailingExec(env, w1, l1, opts, d, tag);
    var (w2, o) := Exec(env, w1, l1, call.body);
    TransactionStaysActive(w1, w2, |w.txs|);
    ChannelStaysOpen(w1, w2, |w.chans|);
    DeferredInvocations(env, w2, |w.txs|, |w.chans|, tag);
    var answer := env.rollback(Now(w2));
    if answer.Some? {
      WrapKeepsNeedRetry(RollbackTx(answer.value), o.err.value);
    }
  }

  lemma {:induction false} FailingDo(env: Env, w: World, l: Locals, opts: TxOpts, d: nat, tag: nat, i: nat,
                                     captured: Res)
    requires ValidEnv(env) && WellFormed(w) && Cooperative(env) && l.errs == [] && i < Budget(env)
    ensures var r := Do(env, w, l, TxCall(opts, Nested(opts, Failing(tag), d)), i, captured);
            && Invocations(r.w.trace, tag) == Invocations(w.trace, tag) + (Budget(env) - i) * Power(Budget(env), d)
            && Retryable(r.err)
    decreases d, 4, Budget(env) - i
  {
    hide Invocations, Grows, NeedRetry, Nested, Power, Attempt, Delay;
    var call := TxCall(opts, Nested(opts, Failing(tag), d));
    FailingAttempt(env, w, l, opts, d, tag);
    var a := Attempt(env, w, l, call);
    var e := Waited(Delay(env, a.w, i));
    InvocationsStep(a.w.trace, e, tag);
    var p := Power(Budget(env), d);
    OneMore(Budget(env) - i, p);
    if i + 1 < Budget(env) {
      FailingDo(env, Log(a.w, e), l, opts, d, tag, i + 1, a.res);
    }
  }

  /** The bound is exact: d + 1 nested runs around code that keeps losing its connection invoke it budget^(d+1)
      times, and the error that comes out would still be retried. */
  lemma {:induction false} FailingRun(env: Env, w: World, l: Locals, opts: TxOpts, d: nat, tag: nat)
    requires ValidEnv(env) && WellFormed(w) && Cooperative(env) && l.errs == []
    ensures Once(Nested(opts, Failing(tag), d), tag, d)
    ensures var r := RunCall(env, w, l, TxCall(opts, Nested(opts, Failing(tag), d)));
            && Invocations(r.w.trace, tag) == Invocations(w.trace, tag) + Power(Budget(env), d + 1)
            && Retryable(r.err)
    decreases d, 5
  {
    NestedOnce(opts, Failing(tag), d, tag);
    hide Invocations, Grows, NeedRetry, Nested, Do, Once;
    var call := TxCall(opts, Nested(opts, Failing(tag), d));
    FailingDo(env, w, l, opts, d, tag, 0, None);
    WrapKeepsNeedRetry(Retry, Do(env, w, l, call, 0, None).err.value);
  }
}
