/** How long the retry loop waits in all. */
module Waiting {
  import opened Options
  import opened Errors
  import opened World
  import opened Interpreter
  import opened RetriedRuns
  import opened Effects
  import opened Amplification
  import Retrier

  /** The waiting a trace requests. */
  function WaitTime(tr: seq<Event>): int {
    if tr == [] then 0
    else WaitTime(tr[..|tr| - 1]) + DelayOf(tr[|tr| - 1])
  }

  function DelayOf(e: Event): int {
    if e.Waited? then e.delay as int else 0
  }

  lemma WaitTimeStep(tr: seq<Event>, e: Event)
    ensures WaitTime(tr + [e]) == WaitTime(tr) + DelayOf(e)
  {
    assert (tr + [e])[..|tr|] == tr;
  }

  /** The waits requested in the first n rounds. */
  ghost function RequestedWait(env: Env, atts: seq<Att>, n: nat): int
    requires ValidEnv(env) && env.retrier.Some?
    requires n <= |atts| <= Budget(env)
  {
    if n == 0 then 0
    else RequestedWait(env, atts, n - 1) + Delay(env, atts[n - 1].result.w, n - 1) as int
  }

  ghost function SumDelays(env: Env, n: nat): (sum: int)
    requires ValidEnv(env) && env.retrier.Some? && n <= Budget(env)
    ensures sum >= 0
  {
    if n == 0 then 0
    else
      assert env.retrier.value.retryDelays[n - 1] in env.retrier.value.retryDelays;
      SumDelays(env, n - 1) + env.retrier.value.retryDelays[n - 1] as int
  }

  ghost function SumOffsets(env: Env, n: nat): int
    requires ValidEnv(env) && env.retrier.Some? && n <= Budget(env)
  {
    if n == 0 then 0
    else
      var r := env.retrier.value;
      assert r.retryDelays[n - 1] in r.retryDelays;
      SumOffsets(env, n - 1) + Retrier.Offset(r.retryDelays[n - 1], r.jitter, env.floats) as int
  }

  /** Total waiting stays within the summed jitter windows, hence below twice the configured delays. */
  lemma {:induction false} TotalWaitBounds(env: Env, atts: seq<Att>, n: nat)
    requires ValidEnv(env) && env.retrier.Some?
    requires n <= |atts| <= Budget(env)
    ensures SumDelays(env, n) - SumOffsets(env, n) <= RequestedWait(env, atts, n)
         <= SumDelays(env, n) + SumOffsets(env, n)
    ensures 0 <= RequestedWait(env, atts, n) <= 2 * SumDelays(env, n) <= 2 * SumDelays(env, Budget(env))
  {
    hide ValidEnv, Delay, Retrier.Offset;
    if n == 0 {
    } else {
      TotalWaitBounds(env, atts, n - 1);
      DelayInWindow(env, atts[n - 1].result.w, n - 1);
    }
    SumDelaysGrows(env, n, Budget(env));
  }

  lemma DelayInWindow(env: Env, w: World, i: nat)
    requires ValidEnv(env) && env.retrier.Some? && i < Budget(env)
    ensures var r := env.retrier.value;
            && r.retryDelays[i] in r.retryDelays && Retrier.ValidDelay(r.retryDelays[i])
            && (var base, offset, d := r.retryDelays[i] as int, SumOffsets(env, i + 1) - SumOffsets(env, i),
                  Delay(env, w, i) as int;
                base - offset <= d <= base + offset && 0 <= d <= 2 * base)
  {
    hide Retrier.CalcDelay, Retrier.Offset, Retrier.Float64;
    assert env.retrier.value.retryDelays[i] in env.retrier.value.retryDelays;
  }

  lemma {:induction false} SumDelaysGrows(env: Env, n: nat, m: nat)
    requires ValidEnv(env) && env.retrier.Some? && n <= m <= Budget(env)
    ensures 0 <= SumDelays(env, n) <= SumDelays(env, m)
  {
    if n < m {
      SumDelaysGrows(env, n, m - 1);
      assert env.retrier.value.retryDelays[m - 1] in env.retrier.value.retryDelays;
    } else if n > 0 {
      SumDelaysGrows(env, n - 1, m - 1);
      assert env.retrier.value.retryDelays[n - 1] in env.retrier.value.retryDelays;
    }
  }

  // ----- The waits are those in the trace -----

  /** The waiting inside the first n attempts: that of runs nested in their jobs. */
  ghost function NestedWait(atts: seq<Att>, n: nat): int
    requires n <= |atts|
  {
    if n == 0 then 0
    else NestedWait(atts, n - 1) + WaitTime(atts[n - 1].result.w.trace) - WaitTime(atts[n - 1].start.trace)
  }

  /** When an attempt starts, the waits of all rounds before it were requested, and those nested in them. */
  lemma {:induction false} WaitedBefore(env: Env, w: World, l: Locals, call: Call, atts: seq<Att>, k: nat)
    requires ValidEnv(env) && env.retrier.Some?
    requires Chain(env, w, l, call, 0, atts) && k < |atts|
    ensures WaitTime(atts[k].start.trace) == WaitTime(w.trace) + RequestedWait(env, atts, k) + NestedWait(atts, k)
  {
    hide Attempt, NeedRetry, Delay, Grows, WaitTime;
    if k == 0 {
    } else {
      var a := atts[k - 1];
      WaitedBefore(env, w, l, call, atts, k - 1);
      assert Waits(env, l, call, 0 + (k - 1), a, atts[k]);
      WaitTimeStep(a.result.w.trace, Waited(Delay(env, a.result.w, k - 1)));
    }
  }

  /** The rounds after which the loop waited: every one but the last, and the last as well when its failure
      was worth a retry and the wait was not cut short. */
  ghost function Rounds(env: Env, call: Call, atts: seq<Att>): nat {
    if atts == [] then 0
    else if Retryable(Last(atts).result.err) && AliveAt(env, call, Last(atts).result.w) then |atts|
    else |atts| - 1
  }

  /** A retried run requests, by its own trace, exactly the waits of its rounds and those of the runs nested in
      its attempts. Its own are at most twice the configured delays in all, and when the whole budget is used up
      in waiting, at least what the jitter leaves of them. */
  lemma RunWaits(env: Env, w: World, l: Locals, call: Call)
    requires ValidEnv(env) && WellFormed(w) && env.retrier.Some?
    ensures var atts := History(env, w, l, call);
            var n := Rounds(env, call, atts);
            && n <= |atts| <= Budget(env)
            && WaitTime(RunCall(env, w, l, call).w.trace) - WaitTime(w.trace)
               == RequestedWait(env, atts, n) + NestedWait(atts, |atts|)
            && 0 <= RequestedWait(env, atts, n) <= 2 * SumDelays(env, Budget(env))
            && (n == Budget(env) ==> SumDelays(env, n) - SumOffsets(env, n) <= RequestedWait(env, atts, n))
  {
    hide Attempt, NeedRetry, Delay, Grows, WaitTime, Do, Attempts, RequestedWait, NestedWait, SumDelays, SumOffsets;
    var atts := History(env, w, l, call);
    DoRefines(env, w, l, call, 0, None);
    var n := Rounds(env, call, atts);
    if atts == [] {
      NoWait(env, atts);
    } else {
      var a := Last(atts);
      WaitedBefore(env, w, l, call, atts, |atts| - 1);
      OneMoreNested(atts);
      if Retryable(a.result.err) {
        if n == |atts| {
          WaitTimeStep(a.result.w.trace, Waited(Delay(env, a.result.w, n - 1)));
          OneMoreWait(env, atts, n);
        } else {
          WaitTimeStep(a.result.w.trace, WaitCut(ErrOf(env, CallCtx(call), Now(a.result.w)).value));
        }
      }
    }
    TotalWaitBounds(env, atts, n);
  }

  lemma NoWait(env: Env, atts: seq<Att>)
    requires ValidEnv(env) && env.retrier.Some? && |atts| <= Budget(env)
    ensures RequestedWait(env, atts, 0) == 0 && NestedWait(atts, 0) == 0
  {
  }

  lemma OneMoreWait(env: Env, atts: seq<Att>, n: nat)
    requires ValidEnv(env) && env.retrier.Some? && 0 < n <= |atts| <= Budget(env)
    ensures RequestedWait(env, atts, n)
         == RequestedWait(env, atts, n - 1) + Delay(env, atts[n - 1].result.w, n - 1) as int
  {
  }

  lemma OneMoreNested(atts: seq<Att>)
    requires atts != []
    ensures NestedWait(atts, |atts|)
         == NestedWait(atts, |atts| - 1) + WaitTime(Last(atts).result.w.trace) - WaitTime(Last(atts).start.trace)
  {
  }

  // ----- A bound for every program -----

  /** What one retry loop can wait at most. */
  ghost function LoopWait(env: Env): (most: int)
    requires ValidEnv(env)
    ensures most >= 0
  {
    if env.retrier.None? then 0 else 2 * SumDelays(env, Budget(env))
  }

  /** Read off the program: each call waits for its own loop, and its body's waits may come once an attempt. */
  ghost function WaitBound(env: Env, job: Job): (most: int)
    requires ValidEnv(env)
    ensures most >= 0
  {
    match job
    case Return(_, _) => 0
    case Raise(_) => 0
    case GetDB(_, next) => WaitBound(env, next)
    case DeriveNoTx(_, next) => WaitBound(env, next)
    case Write(_, _, next) => WaitBound(env, next)
    case IfError(_, failed, passed) => Max(WaitBound(env, failed), WaitBound(env, passed))
    case Invoke(_, branches) => WaitBoundAny(env, branches)
    case Run(call, next) => LoopWait(env) + Times(Budget(env), WaitBound(env, call.body)) + WaitBound(env, next)
  }

  ghost function WaitBoundAny(env: Env, branches: seq<Job>): (most: int)
    requires ValidEnv(env)
    ensures most >= 0
    ensures forall i :: 0 <= i < |branches| ==> WaitBound(env, branches[i]) <= most
  {
    if branches == [] then 0 else Max(WaitBound(env, branches[0]), WaitBoundAny(env, branches[1..]))
  }

  function Times(n: nat, x: int): (product: int)
    ensures x >= 0 ==> product >= 0
  {
    if n == 0 then 0 else x + Times(n - 1, x)
  }

  /** Between w and w' at least nothing, and at most so much, waiting is requested. */
  ghost predicate WaitsWithin(w: World, w': World, most: int) {
    WaitTime(w.trace) <= WaitTime(w'.trace) <= WaitTime(w.trace) + most
  }

  lemma LogWaits(w: World, e: Event, w': World)
    requires w'.trace == w.trace + [e]
    ensures WaitTime(w'.trace) == WaitTime(w.trace) + DelayOf(e)
  {
    WaitTimeStep(w.trace, e);
  }

  lemma ActWaits(env: Env, w: World, l: Locals, job: Job)
    requires ValidEnv(env) && WellFormed(w) && !job.Run?
    ensures var (w', p) := Act(env, w, l, job);
            && WaitTime(w'.trace) == WaitTime(w.trace)
            && (p.GoesOn? ==> WaitBound(env, p.next) <= WaitBound(env, job))
  {
    hide WaitTime, Grows, ValidEnv, LoopWait;
    var w' := Act(env, w, l, job).0;
    if w'.trace != w.trace {
      LogWaits(w, w'.trace[|w.trace|], w');
    }
  }

  lemma {:induction false} ExecWaits(env: Env, w: World, l: Locals, job: Job)
    requires ValidEnv(env) && WellFormed(w)
    ensures WaitsWithin(w, Exec(env, w, l, job).0, WaitBound(env, job))
    decreases job, 0
  {
    hide WaitTime, Grows, ValidEnv, RunCall, LoopWait, Times, Act;
    if job.Run? {
      var c := RunCall(env, w, l, job.call);
      RunCallWaits(env, w, l, job.call);
      ExecWaits(env, c.w, BindReturn(l, c), job.next);
    } else {
      var (w1, p) := Act(env, w, l, job);
      ActWaits(env, w, l, job);
      if p.GoesOn? {
        ExecWaits(env, w1, p.locals, p.next);
      }
    }
  }

  lemma EndingWaits(env: Env, w: World, t: TxId, ch: ChanId)
    requires t < |w.txs| && ch < |w.chans| && w.chans[ch]
    ensures WaitTime(Commit(env, w, t).trace) == WaitTime(w.trace)
    ensures WaitTime(Close(w, ch).trace) == WaitTime(w.trace)
    ensures WaitTime(Close(Rollback(env, w, t), ch).trace) == WaitTime(w.trace)
    ensures Commit(env, w, t).chans == w.chans && |Commit(env, w, t).txs| == |w.txs|
  {
    hide WaitTime;
    var w1, w2 := Commit(env, w, t), Rollback(env, w, t);
    LogWaits(w, w1.trace[|w.trace|], w1);
    LogWaits(w, w2.trace[|w.trace|], w2);
    LogWaits(w, Closed(ch), Close(w, ch));
    LogWaits(w2, Closed(ch), Close(w2, ch));
  }

  lemma FinishTxWaits(env: Env, w: World, t: TxId, ch: ChanId, o: Outcome)
    requires t < |w.txs| && ch < |w.chans| && w.chans[ch] && w.txs[t].status == Active
    ensures WaitTime(FinishTx(env, w, t, ch, o).w.trace) == WaitTime(w.trace)
  {
    hide WaitTime, Commit, Rollback;
    EndingWaits(env, w, t, ch);
    if o.Returned? && o.err.None? {
      EndingWaits(env, Commit(env, w, t), t, ch);
    }
  }

  lemma {:induction false} RunTxWaits(env: Env, w: World, l: Locals, call: Call)
    requires ValidEnv(env) && WellFormed(w) && call.TxCall?
    ensures WaitsWithin(w, RunTx(env, w, l, call).w, WaitBound(env, call.body))
    decreases call, 0
  {
    hide WaitTime, Grows, ValidEnv, Exec, FinishTx, WaitBound;
    var r := RunTx(env, w, l, call);
    var raw := OrBackground(call.txOpts.ctx);
    var opts := call.txOpts.(ctx := Some(raw));
    if env.begin(Now(w)).Some? {
      LogWaits(w, r.w.trace[|w.trace|], r.w);
    } else {
      var w0, w1 := Begin(w, opts), OpenTx(env, w, opts, raw);
      LogWaits(w, w0.trace[|w.trace|], w0);
      LogWaits(w0, w1.trace[|w0.trace|], w1);
      var (w2, o) := Exec(env, w1, BindCtx(l, |w.ctxs|), call.body);
      ExecWaits(env, w1, BindCtx(l, |w.ctxs|), call.body);
      TransactionStaysActive(w1, w2, |w.txs|);
      ChannelStaysOpen(w1, w2, |w.chans|);
      FinishTxWaits(env, w2, |w.txs|, |w.chans|, o);
    }
  }

  lemma {:induction false} RunNoTxWaits(env: Env, w: World, l: Locals, call: Call)
    requires ValidEnv(env) && WellFormed(w) && call.NoTxCall?
    ensures WaitsWithin(w, RunNoTx(env, w, l, call).w, WaitBound(env, call.body))
    decreases call, 0
  {
    hide WaitTime, Grows, ValidEnv, Exec, WaitBound;
    var raw := OrBackground(call.noTxOpts.ctx);
    var w1 := NewContext(w, raw, ProviderDB(env, call.noTxOpts.(ctx := Some(raw)), Now(w)), None);
    LogWaits(w, w1.trace[|w.trace|], w1);
    var w2 := Exec(env, w1, BindCtx(l, |w.ctxs|), call.body).0;
    ExecWaits(env, w1, BindCtx(l, |w.ctxs|), call.body);
    ChannelStaysOpen(w1, w2, |w.chans|);
    LogWaits(w2, Closed(|w.chans|), Close(w2, |w.chans|));
  }

  lemma {:induction false} AttemptWaits(env: Env, w: World, l: Locals, call: Call)
    requires ValidEnv(env) && WellFormed(w)
    ensures WaitsWithin(w, Attempt(env, w, l, call).w, WaitBound(env, call.body))
    decreases call, 1
  {
    hide WaitTime, Grows, ValidEnv, RunTx, RunNoTx, WaitBound;
    if call.TxCall? {
      RunTxWaits(env, w, l, call);
    } else {
      RunNoTxWaits(env, w, l, call);
    }
  }

  /** The i-th wait is at most twice its delay. */
  lemma OneDelay(env: Env, w: World, i: nat)
    requires ValidEnv(env) && env.retrier.Some? && i < Budget(env)
    ensures 0 <= Delay(env, w, i) as int <= 2 * (SumDelays(env, i + 1) - SumDelays(env, i))
  {
    assert env.retrier.value.retryDelays[i] in env.retrier.value.retryDelays;
  }

  lemma {:induction false} DoWaits(env: Env, w: World, l: Locals, call: Call, i: nat, captured: Res)
    requires ValidEnv(env) && WellFormed(w)
    requires env.retrier.Some? && i < Budget(env)
    ensures WaitsWithin(w, Do(env, w, l, call, i, captured).w,
                        2 * (SumDelays(env, Budget(env)) - SumDelays(env, i))
                        + Times(Budget(env) - i, WaitBound(env, call.body)))
    decreases call, 2, Budget(env) - i
  {
    hide WaitTime, Grows, Attempt, NeedRetry, Delay, WaitBound, SumDelays;
    AttemptWaits(env, w, l, call);
    SumDelaysGrows(env, i, Budget(env));
    SumDelaysGrows(env, i + 1, Budget(env));
    var a := Attempt(env, w, l, call);
    var cut := ErrOf(env, CallCtx(call), Now(a.w));
    if cut.Some? {
      LogWaits(a.w, WaitCut(cut.value), Log(a.w, WaitCut(cut.value)));
    } else {
      var e := Waited(Delay(env, a.w, i));
      LogWaits(a.w, e, Log(a.w, e));
      OneDelay(env, a.w, i);
      if i + 1 < Budget(env) {
        DoWaits(env, Log(a.w, e), l, call, i + 1, a.res);
      }
    }
  }

  /** All the waiting a call can request, its own and that of the runs nested in it to any depth. */
  lemma {:induction false} RunCallWaits(env: Env, w: World, l: Locals, call: Call)
    requires ValidEnv(env) && WellFormed(w)
    ensures WaitsWithin(w, RunCall(env, w, l, call).w, LoopWait(env) + Times(Budget(env), WaitBound(env, call.body)))
    decreases call, 3
  {
    hide WaitTime, Grows, Attempt, Do, WaitBound;
    if env.retrier.None? {
      AttemptWaits(env, w, l, call);
      assert Times(1, WaitBound(env, call.body)) == WaitBound(env, call.body) + Times(0, WaitBound(env, call.body));
    } else {
      DoWaits(env, w, l, call, 0, None);
    }
  }

  /** A job without nested runs waits for nothing. */
  lemma {:induction false} FlatWaitsForNothing(env: Env, job: Job)
    requires ValidEnv(env) && Flat(job)
    ensures WaitBound(env, job) == 0
  {
    match job
    case Return(_, _) =>
    case Raise(_) =>
    case GetDB(_, next) => FlatWaitsForNothing(env, next);
    case DeriveNoTx(_, next) => FlatWaitsForNothing(env, next);
    case Write(_, _, next) => FlatWaitsForNothing(env, next);
    case IfError(_, failed, passed) => FlatWaitsForNothing(env, failed); FlatWaitsForNothing(env, passed);
    case Invoke(_, branches) => FlatBranchesWaitForNothing(env, branches);
  }

  lemma {:induction false} FlatBranchesWaitForNothing(env: Env, branches: seq<Job>)
    requires ValidEnv(env) && forall b | b in branches :: Flat(b)
    ensures WaitBoundAny(env, branches) == 0
  {
    if branches == [] {
    } else {
      FlatWaitsForNothing(env, branches[0]);
      FlatBranchesWaitForNothing(env, branches[1..]);
    }
  }

  lemma {:induction false} FlatAttemptsWaitForNothing(env: Env, w: World, l: Locals, call: Call, atts: seq<Att>, n: nat)
    requires ValidEnv(env) && env.retrier.Some? && Flat(call.body)
    requires Chain(env, w, l, call, 0, atts) && n <= |atts|
    ensures NestedWait(atts, n) == 0
  {
    hide Attempt, Waits, Flat, WaitTime;
    if n == 0 {
    } else {
      FlatAttemptsWaitForNothing(env, w, l, call, atts, n - 1);
      AttemptWaits(env, atts[n - 1].start, l, call);
      FlatWaitsForNothing(env, call.body);
    }
  }

  /** Without nested runs, what a run's trace requests are exactly the waits of its own rounds. */
  lemma FlatRunWaits(env: Env, w: World, l: Locals, call: Call)
    requires ValidEnv(env) && WellFormed(w) && env.retrier.Some? && Flat(call.body)
    ensures var atts := History(env, w, l, call);
            var n := Rounds(env, call, atts);
            && n <= |atts| <= Budget(env)
            && WaitTime(RunCall(env, w, l, call).w.trace) - WaitTime(w.trace) == RequestedWait(env, atts, n)
  {
    hide Attempt, Grows, WaitTime, RunCall, Attempts, Flat, RequestedWait, NestedWait, Do;
    RunWaits(env, w, l, call);
    DoRefines(env, w, l, call, 0, None);
    FlatAttemptsWaitForNothing(env, w, l, call, History(env, w, l, call), |History(env, w, l, call)|);
  }
}
