/** Every trace the manager produces, for every job, provider and cancellation pattern, follows the protocol. */
module Bracketing {
  import opened Options
  import opened World
  import opened Interpreter
  import opened Protocol

  ghost predicate AllWorking(s: Stack) {
    s.Push? ==> s.top.Working? && AllWorking(s.rest)
  }

  /** Frames are of different runs. */
  ghost predicate Distinct(s: Stack) {
    s.Push? ==>
      && Distinct(s.rest)
      && (!s.top.Opening? ==> FindOpen(s.rest, s.top.ch).None?)
      && (forall t :: Owns(s.top, t) ==> !ActiveIn(s.rest, t))
  }

  ghost predicate ChansAgree(s: Stack, w: World) {
    && (forall ch: ChanId :: FindOpen(s, ch).Some? ==> ch < |w.chans|)
    && (forall ch: ChanId :: ch < |w.chans| ==> (w.chans[ch] <==> FindOpen(s, ch).Some?))
  }

  ghost predicate TxsAgree(s: Stack, w: World) {
    && (forall t: TxId :: ActiveIn(s, t) ==> t < |w.txs|)
    && (forall t: TxId :: t < |w.txs| ==> (w.txs[t].status == Active <==> ActiveIn(s, t)))
  }

  /** A context of a run in its job is the run's root or was derived from it, in any number of steps. */
  ghost predicate CtxAgrees(s: Stack, c: CtxId, ctx: Ctx) {
    var f := FindOpen(s, ctx.ch);
    f.Some? && f.value.Working? ==>
      ctx == (if c == f.value.root then f.value.ctx else NoTxContext(f.value.ctx))
  }

  ghost predicate CtxsAgree(s: Stack, w: World) {
    && (forall c :: 0 <= c < |w.ctxs| ==> CtxAgrees(s, c, w.ctxs[c]))
    && RootsKnown(s, |w.ctxs|)
  }

  ghost predicate RootsKnown(s: Stack, n: nat) {
    s.Push? ==> (s.top.Working? ==> s.top.root < n) && RootsKnown(s.rest, n)
  }

  /** The stack says which channels are open, which transactions active, and what contexts route to. */
  ghost predicate Tracks(s: Stack, w: World) {
    Distinct(s) && ChansAgree(s, w) && TxsAgree(s, w) && CtxsAgree(s, w)
  }

  function At(env: Env, s: Stack, w: World): Monitor {
    Monitor(env, s, |w.txs|, |w.chans|, Now(w))
  }

  /** From w to w' the monitor accepts what happened, taking stack s to s'. */
  ghost predicate Accepted(env: Env, s: Stack, w: World, s': Stack, w': World) {
    && w.trace <= w'.trace
    && RunAll(At(env, s, w), w'.trace[|w.trace|..]) == Some(At(env, s', w'))
    && Tracks(s', w')
  }

  lemma AcceptedAppend(env: Env, s: Stack, w: World, s1: Stack, w1: World, s2: Stack, w2: World)
    requires Accepted(env, s, w, s1, w1) && Accepted(env, s1, w1, s2, w2)
    ensures Accepted(env, s, w, s2, w2)
  {
    var a, b := w1.trace[|w.trace|..], w2.trace[|w1.trace|..];
    assert w2.trace[|w.trace|..] == a + b;
    RunAllAppend(At(env, s, w), a, b);
  }

  lemma AcceptedStep(env: Env, s: Stack, w: World, e: Event, s': Stack, w': World)
    requires w'.trace == w.trace + [e]
    requires Step(At(env, s, w), e) == Some(At(env, s', w'))
    requires Tracks(s', w')
    ensures Accepted(env, s, w, s', w')
  {
    assert w'.trace[|w.trace|..] == [e];
    assert RunAll(At(env, s', w'), []) == Some(At(env, s', w'));
  }

  lemma AcceptedNothing(env: Env, s: Stack, w: World)
    requires Tracks(s, w)
    ensures Accepted(env, s, w, s, w)
  {
    assert w.trace[|w.trace|..] == [];
  }

  // ----- Jobs -----

  /** A job leaves the stack as it was, or is stopped for good by a dead context, in a panic. */
  ghost predicate JobAccepted(env: Env, s: Stack, w: World, o: Outcome, w': World)
    requires JobRunning(s)
  {
    Accepted(env, s, w, s, w') || (o.Panicked? && Accepted(env, s, w, Aborted(s), w'))
  }

  lemma JobAcceptedAppend(env: Env, s: Stack, w: World, w1: World, o: Outcome, w2: World)
    requires JobRunning(s) && Accepted(env, s, w, s, w1) && JobAccepted(env, s, w1, o, w2)
    ensures JobAccepted(env, s, w, o, w2)
  {
    hide Accepted;
    if Accepted(env, s, w1, s, w2) {
      AcceptedAppend(env, s, w, s, w1, s, w2);
    } else {
      AcceptedAppend(env, s, w, s, w1, Aborted(s), w2);
    }
  }

  lemma {:induction false} ExecAccepted(env: Env, w: World, l: Locals, job: Job, s: Stack)
    requires ValidEnv(env) && WellFormed(w)
    requires JobRunning(s) && AllWorking(s) && Tracks(s, w)
    ensures var (w', o) := Exec(env, w, l, job);
            JobAccepted(env, s, w, o, w')
    decreases job, 0
  {
    hide Tracks, RunCall, JobAccepted;
    var (w', o) := Exec(env, w, l, job);
    if job.Run? {
      var c := RunCall(env, w, l, job.call);
      RunCallAccepted(env, w, l, job.call, s);
      ExecAccepted(env, c.w, BindReturn(l, c), job.next, s);
      JobAcceptedAppend(env, s, w, c.w, o, w');
    } else {
      var (w1, p) := Act(env, w, l, job);
      ActAccepted(env, w, l, job, s);
      if p.GoesOn? {
        ExecAccepted(env, w1, p.locals, p.next, s);
        JobAcceptedAppend(env, s, w, w1, o, w');
      }
    }
  }

  /** A single statement is at most one event. */
  lemma ActAccepted(env: Env, w: World, l: Locals, job: Job, s: Stack)
    requires WellFormed(w) && !job.Run?
    requires JobRunning(s) && AllWorking(s) && Tracks(s, w)
    ensures var (w', p) := Act(env, w, l, job);
            if p.GoesOn? then Accepted(env, s, w, s, w') else JobAccepted(env, s, w, p.outcome, w')
  {
    hide Tracks, Grows;
    AcceptedNothing(env, s, w);
    var w1 := Act(env, w, l, job).0;
    if w1 != w {
      var e := w1.trace[|w.trace|];
      if job.DeriveNoTx? {
        DeriveTracks(s, w, e.from);
      } else {
        SameStateTracks(s, w, w1);
      }
      if job.GetDB? {
        GetDBStep(env, w, l, job, s);
      } else if job.Write? {
        WriteStep(env, w, HandleOf(env, w, l, job.db).value, job.v, s);
      }
      if e.Refused? {
        AbortedTracks(s, w1);
        AcceptedStep(env, s, w, e, Aborted(s), w1);
      } else {
        AcceptedStep(env, s, w, e, s, w1);
      }
    }
  }

  /** Stopping the job changes neither transaction nor channel. */
  lemma AbortedTracks(s: Stack, w: World)
    requires JobRunning(s) && Tracks(s, w)
    ensures Tracks(Aborted(s), w)
  {
    var s' := Aborted(s);
    forall ch: ChanId ensures FindOpen(s', ch).Some? == FindOpen(s, ch).Some? {
    }
    forall t: TxId ensures ActiveIn(s', t) == ActiveIn(s, t) {
    }
    forall c | 0 <= c < |w.ctxs| ensures CtxAgrees(s', c, w.ctxs[c]) {
      assert CtxAgrees(s, c, w.ctxs[c]);
    }
  }

  /** The stack does not depend on buffers, logs or the trace. */
  lemma SameStateTracks(s: Stack, w: World, w': World)
    requires Tracks(s, w)
    requires w'.chans == w.chans && w'.ctxs == w.ctxs && |w'.txs| == |w.txs|
    requires forall t :: 0 <= t < |w.txs| ==> w'.txs[t].status == w.txs[t].status
    ensures Tracks(s, w')
  {
  }

  lemma GetDBStep(env: Env, w: World, l: Locals, job: Job, s: Stack)
    requires WellFormed(w) && job.GetDB?
    requires JobRunning(s) && AllWorking(s) && Tracks(s, w)
    requires Act(env, w, l, job).0 != w
    ensures var w1 := Act(env, w, l, job).0;
            && w1.trace == w.trace + [w1.trace[|w.trace|]]
            && Step(At(env, s, w), w1.trace[|w.trace|])
               == Some(At(env, if w1.trace[|w.trace|].Refused? then Aborted(s) else s, w1))
  {
    var c := CtxOf(env, w, l, job.ctx).value;
    AllWorkingFind(s, w.ctxs[c].ch);
    assert CtxAgrees(s, c, w.ctxs[c]);
  }

  lemma WriteStep(env: Env, w: World, db: DB, v: int, s: Stack)
    requires JobRunning(s) && Tracks(s, w)
    ensures var w1 := ProviderWrite(env, w, db, v).0;
            && w1.trace == w.trace + [w1.trace[|w.trace|]]
            && Step(At(env, s, w), w1.trace[|w.trace|]) == Some(At(env, s, w1))
  {
  }

  lemma {:induction false} AllWorkingFind(s: Stack, ch: ChanId)
    requires AllWorking(s)
    ensures FindOpen(s, ch).Some? ==> FindOpen(s, ch).value.Working?
  {
    if s.Bottom? {
    } else {
      AllWorkingFind(s.rest, ch);
    }
  }

  lemma {:induction false} RootsKnownMore(s: Stack, n: nat, n': nat)
    requires RootsKnown(s, n) && n <= n'
    ensures RootsKnown(s, n')
  {
    if s.Bottom? {
    } else {
      RootsKnownMore(s.rest, n, n');
    }
  }

  lemma {:induction false} FoundRootKnown(s: Stack, n: nat, ch: ChanId)
    requires RootsKnown(s, n)
    ensures FindOpen(s, ch).Some? && FindOpen(s, ch).value.Working? ==> FindOpen(s, ch).value.root < n
  {
    if s.Bottom? {
    } else {
      FoundRootKnown(s.rest, n, ch);
    }
  }

  lemma DeriveTracks(s: Stack, w: World, c: CtxId)
    requires Tracks(s, w) && c < |w.ctxs|
    ensures Tracks(s, DeriveContext(w, c))
  {
    RootsKnownMore(s, |w.ctxs|, |w.ctxs| + 1);
    FoundRootKnown(s, |w.ctxs|, w.ctxs[c].ch);
    assert CtxAgrees(s, c, w.ctxs[c]);
    var w1 := DeriveContext(w, c);
    forall i | 0 <= i < |w1.ctxs| ensures CtxAgrees(s, i, w1.ctxs[i]) {
      if i < |w.ctxs| {
        assert CtxAgrees(s, i, w.ctxs[i]);
      }
    }
  }

  // ----- Runs -----

  /** A new run on top of the stack, its context on a fresh channel. */
  lemma EnterTracks(s: Stack, w: World, owned: Option<TxId>, ctx: Ctx, w': World)
    requires Tracks(s, w)
    requires ctx.ch == |w.chans|
    requires w'.chans == w.chans + [true] && w'.ctxs == w.ctxs + [ctx]
    requires owned.None? ==> w'.txs == w.txs
    requires owned.Some? ==> owned.value == |w.txs| && w'.txs == w.txs + [Tx(Active, [])]
    requires WellFormed(w)
    ensures Tracks(Push(Working(owned, ctx.ch, |w.ctxs|, ctx), s), w')
  {
    RootsKnownMore(s, |w.ctxs|, |w.ctxs| + 1);
    var s' := Push(Working(owned, ctx.ch, |w.ctxs|, ctx), s);
    forall c | 0 <= c < |w'.ctxs| ensures CtxAgrees(s', c, w'.ctxs[c]) {
      if c < |w.ctxs| {
        assert CtxAgrees(s, c, w.ctxs[c]);
      }
    }
  }

  lemma {:induction false} RunTxAccepted(env: Env, w: World, l: Locals, call: Call, s: Stack)
    requires ValidEnv(env) && WellFormed(w) && call.TxCall?
    requires AllWorking(s) && Tracks(s, w)
    ensures Accepted(env, s, w, s, RunTx(env, w, l, call).w)
    decreases call, 0
  {
    var raw := OrBackground(call.txOpts.ctx);
    var opts := call.txOpts.(ctx := Some(raw));
    var answer := env.begin(Now(w));
    if answer.Some? {
      AcceptedStep(env, s, w, BeginErr(opts, answer.value), s, RunTx(env, w, l, call).w);
    } else {
      var t, ch := |w.txs|, |w.chans|;
      var w1 := OpenTx(env, w, opts, raw);
      var ctx := w1.ctxs[|w.ctxs|];
      var s1 := Push(Working(Some(t), ch, |w.ctxs|, ctx), s);
      OpenTxAccepted(env, w, opts, raw, s);
      var (w2, o) := Exec(env, w1, BindCtx(l, |w.ctxs|), call.body);
      ExecAccepted(env, w1, BindCtx(l, |w.ctxs|), call.body, s1);
      var s2 := if Accepted(env, s1, w1, s1, w2) then s1 else Aborted(s1);
      AcceptedAppend(env, s, w, s1, w1, s2, w2);
      TransactionStaysActive(w1, w2, t);
      ChannelStaysOpen(w1, w2, ch);
      FinishTxAccepted(env, w2, s2, o);
      AcceptedAppend(env, s, w, s2, w2, s, FinishTx(env, w2, t, ch, o).w);
    }
  }

  lemma OpenTxAccepted(env: Env, w: World, opts: TxOpts, raw: RawCtx, s: Stack)
    requires WellFormed(w) && AllWorking(s) && Tracks(s, w) && opts.ctx == Some(raw)
    ensures var w1 := OpenTx(env, w, opts, raw);
            Accepted(env, s, w, Push(Working(Some(|w.txs|), |w.chans|, |w.ctxs|, w1.ctxs[|w.ctxs|]), s), w1)
  {
    var w0 := Begin(w, opts);
    var w1 := OpenTx(env, w, opts, raw);
    var ctx := w1.ctxs[|w.ctxs|];
    var b, e := BeginOk(|w.txs|, opts), Enter(|w.chans|, |w.ctxs|, ctx);
    var s1 := Push(Working(Some(|w.txs|), |w.chans|, |w.ctxs|, ctx), s);
    EnterTracks(s, w, Some(|w.txs|), ctx, w1);
    var m0 := At(env, Push(Opening(|w.txs|, opts), s), w0);
    assert Step(At(env, s, w), b) == Some(m0);
    assert Step(m0, e) == Some(At(env, s1, w1));
    assert w1.trace[|w.trace|..] == [b, e];
    assert [b, e][1..] == [e];
    assert RunAll(m0, [e]) == Some(At(env, s1, w1));
  }

  /** What comes after the job, by each of its routes, takes the run off the stack again. */
  lemma FinishTxAccepted(env: Env, w: World, s: Stack, o: Outcome)
    requires s.Push? && (s.top.Working? || (s.top.Aborting? && o.Panicked?)) && s.top.owned.Some?
    requires AllWorking(s.rest) && Tracks(s, w) && WellFormed(w)
    requires s.top.owned.value < |w.txs| && s.top.ch < |w.chans|
    requires w.chans[s.top.ch] && w.txs[s.top.owned.value].status == Active
    ensures Accepted(env, s, w, s.rest, FinishTx(env, w, s.top.owned.value, s.top.ch, o).w)
  {
    var t, ch := s.top.owned.value, s.top.ch;
    if o.Returned? && o.err.None? {
      var w1 := Commit(env, w, t);
      var e := w1.trace[|w.trace|];
      if env.commit(Now(w)).CommitDone? {
        TopTracks(s, w, Leaving(ch), w1);
        AcceptedStep(env, s, w, e, Push(Leaving(ch), s.rest), w1);
        CloseAccepted(env, Push(Leaving(ch), s.rest), w1, ch);
        AcceptedAppend(env, s, w, Push(Leaving(ch), s.rest), w1, s.rest, Close(w1, ch));
      } else {
        var s1 := Push(Failing(t, ch), s.rest);
        TopTracks(s, w, Failing(t, ch), w1);
        AcceptedStep(env, s, w, e, s1, w1);
        RollbackAccepted(env, s1, w1, t, ch);
        AcceptedAppend(env, s, w, s1, w1, s.rest, Close(Rollback(env, w1, t), ch));
      }
    } else {
      RollbackAccepted(env, s, w, t, ch);
    }
  }

  /** The innermost run leaves its job: its transaction is not active any more. */
  lemma TopTracks(s: Stack, w: World, f: Frame, w': World)
    requires s.Push? && (s.top.Working? || s.top.Aborting? || s.top.Failing?) && Tracks(s, w) && AllWorking(s.rest)
    requires (f.Failing? || f.Leaving?) && f.ch == s.top.ch
    requires w'.chans == w.chans && w'.ctxs == w.ctxs && |w'.txs| == |w.txs|
    requires forall i: TxId :: i < |w.txs| ==>
      (w'.txs[i].status == Active <==> w.txs[i].status == Active && !Owns(s.top, i))
    ensures Tracks(Push(f, s.rest), w')
  {
    var s' := Push(f, s.rest);
    forall ch: ChanId ensures FindOpen(s', ch).Some? == FindOpen(s, ch).Some? {
    }
    forall c | 0 <= c < |w'.ctxs| ensures CtxAgrees(s', c, w'.ctxs[c]) {
      assert CtxAgrees(s, c, w.ctxs[c]);
    }
    forall i: TxId ensures ActiveIn(s', i) <==> ActiveIn(s, i) && !Owns(s.top, i) {
    }
  }

  lemma RollbackAccepted(env: Env, s: Stack, w: World, t: TxId, ch: ChanId)
    requires s.Push? && AllWorking(s.rest) && Tracks(s, w) && WellFormed(w)
    requires || s.top == Failing(t, ch)
             || ((s.top.Working? || s.top.Aborting?) && s.top.owned == Some(t) && s.top.ch == ch)
    requires t < |w.txs| && ch < |w.chans| && w.chans[ch]
    requires s.top.Failing? ==> w.txs[t].status != Active
    ensures Accepted(env, s, w, s.rest, Close(Rollback(env, w, t), ch))
  {
    var w1 := Rollback(env, w, t);
    var s1 := Push(Leaving(ch), s.rest);
    TopTracks(s, w, Leaving(ch), w1);
    AcceptedStep(env, s, w, RolledBack(t, env.rollback(Now(w))), s1, w1);
    CloseAccepted(env, s1, w1, ch);
    AcceptedAppend(env, s, w, s1, w1, s.rest, Close(w1, ch));
  }

  lemma CloseAccepted(env: Env, s: Stack, w: World, ch: ChanId)
    requires s.Push? && AllWorking(s.rest) && Tracks(s, w) && WellFormed(w)
    requires MustClose(s.top, ch) || (s.top.Working? && s.top.owned.None? && s.top.ch == ch)
    requires ch < |w.chans| && w.chans[ch]
    ensures Accepted(env, s, w, s.rest, Close(w, ch))
  {
    var w1 := Close(w, ch);
    forall c | 0 <= c < |w1.ctxs| ensures CtxAgrees(s.rest, c, w1.ctxs[c]) {
      assert CtxAgrees(s, c, w.ctxs[c]);
    }
    forall i: ChanId ensures FindOpen(s, i).Some? <==> FindOpen(s.rest, i).Some? || i == ch {
    }
    forall i: TxId ensures ActiveIn(s, i) <==> ActiveIn(s.rest, i) {
    }
    AcceptedStep(env, s, w, Closed(ch), s.rest, w1);
  }

  lemma {:induction false} RunNoTxAccepted(env: Env, w: World, l: Locals, call: Call, s: Stack)
    requires ValidEnv(env) && WellFormed(w) && call.NoTxCall?
    requires AllWorking(s) && Tracks(s, w)
    ensures Accepted(env, s, w, s, RunNoTx(env, w, l, call).w)
    decreases call, 0
  {
    var raw := OrBackground(call.noTxOpts.ctx);
    var w1 := NewContext(w, raw, ProviderDB(env, call.noTxOpts.(ctx := Some(raw)), Now(w)), None);
    var ctx := w1.ctxs[|w.ctxs|];
    var s1 := Push(Working(None, |w.chans|, |w.ctxs|, ctx), s);
    EnterTracks(s, w, None, ctx, w1);
    AcceptedStep(env, s, w, Enter(|w.chans|, |w.ctxs|, ctx), s1, w1);
    var (w2, o) := Exec(env, w1, BindCtx(l, |w.ctxs|), call.body);
    ExecAccepted(env, w1, BindCtx(l, |w.ctxs|), call.body, s1);
    var s2 := if Accepted(env, s1, w1, s1, w2) then s1 else Aborted(s1);
    AcceptedAppend(env, s, w, s1, w1, s2, w2);
    ChannelStaysOpen(w1, w2, |w.chans|);
    CloseAccepted(env, s2, w2, |w.chans|);
    AcceptedAppend(env, s, w, s2, w2, s, Close(w2, |w.chans|));
  }

  lemma {:induction false} AttemptAccepted(env: Env, w: World, l: Locals, call: Call, s: Stack)
    requires ValidEnv(env) && WellFormed(w)
    requires AllWorking(s) && Tracks(s, w)
    ensures Accepted(env, s, w, s, Attempt(env, w, l, call).w)
    decreases call, 1
  {
    if call.TxCall? {
      RunTxAccepted(env, w, l, call, s);
    } else {
      RunNoTxAccepted(env, w, l, call, s);
    }
  }

  /** One attempt and the wait after it, of either outcome. */
  lemma RoundAccepted(env: Env, w: World, l: Locals, call: Call, s: Stack, e: Event)
    requires ValidEnv(env) && WellFormed(w) && (e.Waited? || e.WaitCut?)
    requires AllWorking(s) && Tracks(s, w) && Accepted(env, s, w, s, Attempt(env, w, l, call).w)
    ensures Accepted(env, s, w, s, Log(Attempt(env, w, l, call).w, e))
  {
    hide Attempt, Accepted;
    var w0 := Attempt(env, w, l, call).w;
    WaitAccepted(env, s, w, w0, e);
    AcceptedAppend(env, s, w, s, w0, s, Log(w0, e));
  }

  lemma WaitAccepted(env: Env, s: Stack, w: World, w': World, e: Event)
    requires AllWorking(s) && WellFormed(w') && Accepted(env, s, w, s, w') && (e.Waited? || e.WaitCut?)
    ensures Accepted(env, s, w', s, Log(w', e))
  {
    hide RunAll;
    AcceptedStep(env, s, w', e, s, Log(w', e));
  }

  lemma {:induction false} DoAccepted(env: Env, w: World, l: Locals, call: Call, i: nat, captured: Res, s: Stack)
    requires ValidEnv(env) && WellFormed(w)
    requires env.retrier.Some? && i < Budget(env)
    requires AllWorking(s) && Tracks(s, w)
    ensures Accepted(env, s, w, s, Do(env, w, l, call, i, captured).w)
    decreases call, 2, Budget(env) - i
  {
    hide Attempt, RunAll, Grows, Delay;
    AcceptedNothing(env, s, w);
    var a := Attempt(env, w, l, call);
    AttemptAccepted(env, w, l, call, s);
    var cut := ErrOf(env, CallCtx(call), Now(a.w));
    var e := if cut.Some? then WaitCut(cut.value) else Waited(Delay(env, a.w, i));
    var w1 := Log(a.w, e);
    RoundAccepted(env, w, l, call, s, e);
    if cut.None? && i + 1 < Budget(env) {
      DoAccepted(env, w1, l, call, i + 1, a.res, s);
      AcceptedAppend(env, s, w, s, w1, s, Do(env, w1, l, call, i + 1, a.res).w);
    }
  }

  /** The main result: a call made from any point of any program, retried or not, with runs nested in it to
      any depth, is accepted by the protocol and leaves the stack of runs as it found it. */
  lemma {:induction false} RunCallAccepted(env: Env, w: World, l: Locals, call: Call, s: Stack)
    requires ValidEnv(env) && WellFormed(w)
    requires AllWorking(s) && Tracks(s, w)
    ensures Accepted(env, s, w, s, RunCall(env, w, l, call).w)
    decreases call, 3
  {
    if env.retrier.None? {
      AttemptAccepted(env, w, l, call, s);
    } else {
      DoAccepted(env, w, l, call, 0, None, s);
    }
  }

  lemma {:induction false} ProgramAccepted(env: Env, calls: seq<Call>)
    requires ValidEnv(env)
    ensures Accepted(env, Bottom, EMPTY_WORLD, Bottom, RunProgram(env, calls))
    ensures RunAll(Monitor(env, Bottom, 0, 0, 0), RunProgram(env, calls).trace)
         == Some(At(env, Bottom, RunProgram(env, calls)))
  {
    hide RunCall;
    var w := RunProgram(env, calls);
    if calls == [] {
      AcceptedNothing(env, Bottom, EMPTY_WORLD);
    } else {
      var w0 := RunProgram(env, calls[..|calls| - 1]);
      ProgramAccepted(env, calls[..|calls| - 1]);
      RunCallAccepted(env, w0, NO_LOCALS, calls[|calls| - 1], Bottom);
      AcceptedAppend(env, Bottom, EMPTY_WORLD, Bottom, w0, Bottom, w);
    }
    assert w.trace[0..] == w.trace;
  }

  /** For whole programs: each transaction ends exactly once, each channel is closed exactly once. */
  lemma ProgramIsBracketed(env: Env, calls: seq<Call>, t: TxId, ch: ChanId)
    requires ValidEnv(env)
    ensures var w := RunProgram(env, calls);
            && Begun(w.trace, t) == CommitsOf(w.trace, t) + RollbacksOf(w.trace, t) == Fresh(0, t, |w.txs|)
            && FailedCommitsOf(w.trace, t) <= RollbacksOf(w.trace, t)
            && OpensOf(w.trace, ch) == ClosesOf(w.trace, ch) == Fresh(0, ch, |w.chans|)
  {
    hide RunProgram;
    var w := RunProgram(env, calls);
    ProgramAccepted(env, calls);
    TransactionsBalance(Monitor(env, Bottom, 0, 0, 0), w.trace, t);
    ChannelsBalance(Monitor(env, Bottom, 0, 0, 0), w.trace, ch);
  }
}
