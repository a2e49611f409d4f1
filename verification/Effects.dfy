/** What reaches the database: the logs, explained by the trace alone. */
module Effects {
  import opened Options
  import opened World
  import opened Interpreter
  import opened RetriedRuns

  /** The value the event writes through the handle of t. */
  function WriteOf(e: Event, t: TxId): seq<int> {
    if e.Wrote? && e.db == TxHandle(t) then [e.v] else []
  }

  /** The values written through the handle of t, in order. */
  function WritesTo(tr: seq<Event>, t: TxId): seq<int> {
    if tr == [] then []
    else
      WritesTo(tr[..|tr| - 1], t) + WriteOf(tr[|tr| - 1], t)
  }

  /** The primary log a trace stands for: each successful commit adds all that was written to its
      transaction before, and nothing else adds anything. */
  function Replay(tr: seq<Event>): seq<(TxId, int)> {
    if tr == [] then []
    else
      var e, before := tr[|tr| - 1], tr[..|tr| - 1];
      Replay(before) + (if e.CommitOk? then Tagged(e.tx, WritesTo(before, e.tx)) else [])
  }

  /** The writes that went around transactions, in order. */
  function PoolWrites(tr: seq<Event>): seq<(nat, int)> {
    if tr == [] then []
    else
      var e := tr[|tr| - 1];
      PoolWrites(tr[..|tr| - 1]) + (if e.Wrote? && e.db.Pool? then [(e.db.id, e.v)] else [])
  }

  /** The values of t in a log, in order. */
  function Only(log: seq<(TxId, int)>, t: TxId): seq<int> {
    if log == [] then []
    else Only(log[..|log| - 1], t) + (if log[|log| - 1].0 == t then [log[|log| - 1].1] else [])
  }

  /** All of a committed transaction's writes are in the primary log, and none of any other's. */
  ghost predicate AllOrNothing(w: World) {
    forall t: TxId :: Only(w.primary, t) ==
      if t < |w.txs| && w.txs[t].status == Committed then WritesTo(w.trace, t) else []
  }

  /** The trace records the commits of exactly the committed transactions. */
  ghost predicate CommitsRecorded(w: World) {
    forall t: TxId :: CommitOk(t) in w.trace <==> t < |w.txs| && w.txs[t].status == Committed
  }

  /** The state agrees with its own history. */
  ghost predicate Explained(w: World) {
    && w.primary == Replay(w.trace)
    && w.pools == PoolWrites(w.trace)
    && AllOrNothing(w)
    && CommitsRecorded(w)
    && (forall t: TxId :: WritesTo(w.trace, t) == if t < |w.txs| then w.txs[t].buffer else [])
  }

  lemma {:induction false} OnlyAppend(a: seq<(TxId, int)>, b: seq<(TxId, int)>, t: TxId)
    ensures Only(a + b, t) == Only(a, t) + Only(b, t)
  {
    if b == [] {
      assert a + b == a;
    } else {
      assert (a + b)[..|a + b| - 1] == a + b[..|b| - 1];
      OnlyAppend(a, b[..|b| - 1], t);
    }
  }

  lemma {:induction false} OnlyTagged(u: TxId, vs: seq<int>, t: TxId)
    ensures Only(Tagged(u, vs), t) == if t == u then vs else []
  {
    if vs == [] {
    } else {
      assert Tagged(u, vs)[..|vs| - 1] == Tagged(u, vs[..|vs| - 1]);
      OnlyTagged(u, vs[..|vs| - 1], t);
    }
  }

  lemma {:induction false} PoolWritesAppend(a: seq<Event>, b: seq<Event>)
    ensures PoolWrites(a + b) == PoolWrites(a) + PoolWrites(b)
  {
    if b == [] {
      assert a + b == a;
    } else {
      assert (a + b)[..|a + b| - 1] == a + b[..|b| - 1];
      PoolWritesAppend(a, b[..|b| - 1]);
    }
  }

  lemma LogStep(tr: seq<Event>, e: Event)
    ensures Replay(tr + [e]) == Replay(tr) + (if e.CommitOk? then Tagged(e.tx, WritesTo(tr, e.tx)) else [])
    ensures PoolWrites(tr + [e]) == PoolWrites(tr) + (if e.Wrote? && e.db.Pool? then [(e.db.id, e.v)] else [])
    ensures forall t: TxId :: WritesTo(tr + [e], t) == WritesTo(tr, t) + WriteOf(e, t)
  {
    assert (tr + [e])[..|tr|] == tr;
  }

  // ----- Every operation keeps the state explained -----

  lemma BeginExplained(w: World, opts: TxOpts)
    requires Explained(w)
    ensures Explained(Begin(w, opts))
  {
    hide Replay, PoolWrites, WritesTo, Only;
    LogStep(w.trace, BeginOk(|w.txs|, opts));
  }

  /** An event that neither writes nor commits, on a world whose database state does not change. */
  lemma QuietExplained(w: World, e: Event, w': World)
    requires Explained(w) && !e.CommitOk? && !e.Wrote?
    requires w'.trace == w.trace + [e] && w'.primary == w.primary && w'.pools == w.pools
    requires |w'.txs| == |w.txs|
    requires forall t: TxId :: t < |w.txs| ==>
      w'.txs[t].buffer == w.txs[t].buffer && (w'.txs[t].status == Committed <==> w.txs[t].status == Committed)
    ensures Explained(w')
  {
    hide Replay, PoolWrites, WritesTo, Only;
    LogStep(w.trace, e);
  }

  lemma WriteExplained(env: Env, w: World, db: DB, v: int)
    requires Explained(w)
    ensures Explained(ProviderWrite(env, w, db, v).0)
  {
    hide Replay, PoolWrites, WritesTo, Only;
    var (w', err) := ProviderWrite(env, w, db, v);
    if err.Some? {
      QuietExplained(w, WriteErr(db, err.value), w');
    } else {
      LogStep(w.trace, Wrote(db, v));
      assert w'.trace == w.trace + [Wrote(db, v)];
    }
  }

  lemma CommitExplained(env: Env, w: World, t: TxId)
    requires Explained(w) && t < |w.txs| && w.txs[t].status == Active
    ensures Explained(Commit(env, w, t))
  {
    hide Replay, PoolWrites, WritesTo, Only;
    match env.commit(Now(w))
    case CommitDone => CommitDoneExplained(env, w, t);
    case CommitFails(e) => QuietExplained(w, CommitErr(t, e), Commit(env, w, t));
    case CommitPanics(v) => QuietExplained(w, CommitPanic(t, v), Commit(env, w, t));
  }

  lemma CommitDoneExplained(env: Env, w: World, t: TxId)
    requires Explained(w) && t < |w.txs| && w.txs[t].status == Active
    requires env.commit(Now(w)).CommitDone?
    ensures Explained(Commit(env, w, t))
  {
    hide Replay, PoolWrites, WritesTo, Only;
    var w' := Commit(env, w, t);
    var added := Tagged(t, w.txs[t].buffer);
    LogStep(w.trace, CommitOk(t));
    assert w'.trace == w.trace + [CommitOk(t)] && w'.primary == w.primary + added;
    forall u: TxId ensures Only(w'.primary, u) ==
        if u < |w'.txs| && w'.txs[u].status == Committed then WritesTo(w'.trace, u) else [] {
      OnlyAppend(w.primary, added, u);
      OnlyTagged(t, w.txs[t].buffer, u);
    }
  }

  lemma OpenTxExplained(env: Env, w: World, opts: TxOpts, raw: RawCtx)
    requires Explained(w)
    ensures Explained(OpenTx(env, w, opts, raw))
  {
    BeginExplained(w, opts);
    var w0, w1 := Begin(w, opts), OpenTx(env, w, opts, raw);
    QuietExplained(w0, w1.trace[|w0.trace|], w1);
  }

  lemma DeferredExplained(env: Env, w: World, t: TxId, ch: ChanId, res: Res, err: Option<Errors.Error>)
    requires Explained(w) && t < |w.txs| && ch < |w.chans| && w.chans[ch]
    requires err.None? <==> w.txs[t].status == Committed
    ensures Explained(Deferred(env, w, t, ch, res, err).w)
  {
    if err.None? {
      QuietExplained(w, Closed(ch), Close(w, ch));
    } else {
      var w1 := Rollback(env, w, t);
      QuietExplained(w, w1.trace[|w.trace|], w1);
      QuietExplained(w1, Closed(ch), Close(w1, ch));
    }
  }

  lemma FinishTxExplained(env: Env, w: World, t: TxId, ch: ChanId, o: Outcome)
    requires Explained(w) && t < |w.txs| && ch < |w.chans| && w.chans[ch] && w.txs[t].status == Active
    ensures Explained(FinishTx(env, w, t, ch, o).w)
  {
    var r := FinishTx(env, w, t, ch, o);
    match o
    case Panicked(v) => DeferredExplained(env, w, t, ch, None, Some(Errors.Error(Errors.Panic(v), [])));
    case Returned(res, err) =>
      if err.Some? {
        DeferredExplained(env, w, t, ch, None, err);
      } else {
        CommitExplained(env, w, t);
        var w1 := Commit(env, w, t);
        match env.commit(Now(w))
        case CommitDone => DeferredExplained(env, w1, t, ch, res, None);
        case CommitFails(e) => DeferredExplained(env, w1, t, ch, None, Some(Errors.Wrap(Errors.CommitTx, e)));
        case CommitPanics(v) => DeferredExplained(env, w1, t, ch, None, Some(Errors.Error(Errors.Panic(v), [])));
      }
  }

  lemma ActExplained(env: Env, w: World, l: Locals, job: Job)
    requires WellFormed(w) && !job.Run? && Explained(w)
    ensures Explained(Act(env, w, l, job).0)
  {
    var w1 := Act(env, w, l, job).0;
    if job.Write? {
      var db := HandleOf(env, w, l, job.db);
      if db.Some? {
        WriteExplained(env, w, db.value, job.v);
      }
    } else if w1 != w {
      QuietExplained(w, w1.trace[|w.trace|], w1);
    }
  }

  // ----- Whole calls -----

  lemma {:induction false} ExecExplained(env: Env, w: World, l: Locals, job: Job)
    requires ValidEnv(env) && WellFormed(w) && Explained(w)
    ensures Explained(Exec(env, w, l, job).0)
    decreases job, 0
  {
    hide Explained, RunCall;
    if job.Run? {
      var c := RunCall(env, w, l, job.call);
      RunCallExplained(env, w, l, job.call);
      ExecExplained(env, c.w, BindReturn(l, c), job.next);
    } else {
      var (w1, p) := Act(env, w, l, job);
      ActExplained(env, w, l, job);
      if p.GoesOn? {
        ExecExplained(env, w1, p.locals, p.next);
      }
    }
  }

  lemma {:induction false} AttemptExplained(env: Env, w: World, l: Locals, call: Call)
    requires ValidEnv(env) && WellFormed(w) && Explained(w)
    ensures Explained(Attempt(env, w, l, call).w)
    decreases call, 1
  {
    hide Explained;
    var r := Attempt(env, w, l, call);
    if call.NoTxCall? {
      assert r == RunNoTx(env, w, l, call);
      var raw := OrBackground(call.noTxOpts.ctx);
      var w1 := NewContext(w, raw, ProviderDB(env, call.noTxOpts.(ctx := Some(raw)), Now(w)), None);
      QuietExplained(w, w1.trace[|w.trace|], w1);
      var w2 := Exec(env, w1, BindCtx(l, |w.ctxs|), call.body).0;
      ExecExplained(env, w1, BindCtx(l, |w.ctxs|), call.body);
      QuietExplained(w2, Closed(|w.chans|), Close(w2, |w.chans|));
    } else {
      assert r == RunTx(env, w, l, call);
      var raw := OrBackground(call.txOpts.ctx);
      var opts := call.txOpts.(ctx := Some(raw));
      if env.begin(Now(w)).Some? {
        QuietExplained(w, r.w.trace[|w.trace|], r.w);
      } else {
        var w1 := OpenTx(env, w, opts, raw);
        OpenTxExplained(env, w, opts, raw);
        var (w2, o) := Exec(env, w1, BindCtx(l, |w.ctxs|), call.body);
        ExecExplained(env, w1, BindCtx(l, |w.ctxs|), call.body);
        assert TxGrows(w1.txs[|w.txs|], w2.txs[|w.txs|]);
        FinishTxExplained(env, w2, |w.txs|, |w.chans|, o);
      }
    }
  }

  lemma {:induction false} DoExplained(env: Env, w: World, l: Locals, call: Call, i: nat, captured: Res)
    requires ValidEnv(env) && WellFormed(w) && Explained(w)
    requires env.retrier.Some? && i < Budget(env)
    ensures Explained(Do(env, w, l, call, i, captured).w)
    decreases call, 2, Budget(env) - i
  {
    hide Explained, Attempt, Errors.NeedRetry, Delay, Grows;
    AttemptExplained(env, w, l, call);
    var a := Attempt(env, w, l, call);
    var cut := ErrOf(env, CallCtx(call), Now(a.w));
    if cut.Some? {
      QuietExplained(a.w, WaitCut(cut.value), Log(a.w, WaitCut(cut.value)));
    } else {
      var e := Waited(Delay(env, a.w, i));
      QuietExplained(a.w, e, Log(a.w, e));
      if i + 1 < Budget(env) {
        DoExplained(env, Log(a.w, e), l, call, i + 1, a.res);
      }
    }
  }

  /** The logs after any call are those of its trace: the primary log is the concatenation of the writes of the
      committed transactions, in the order of their commits; the other log is every write around transactions. */
  lemma {:induction false} RunCallExplained(env: Env, w: World, l: Locals, call: Call)
    requires ValidEnv(env) && WellFormed(w) && Explained(w)
    ensures Explained(RunCall(env, w, l, call).w)
    decreases call, 3
  {
    hide Explained, Attempt, Do;
    if env.retrier.None? {
      AttemptExplained(env, w, l, call);
    } else {
      DoExplained(env, w, l, call, 0, None);
    }
  }

  /** So it is after every program: in the primary log are the committed transactions, whole, and only they. */
  lemma {:induction false} ProgramExplained(env: Env, calls: seq<Call>)
    requires ValidEnv(env)
    ensures Explained(RunProgram(env, calls))
  {
    hide RunCall;
    if calls == [] {
    } else {
      ProgramExplained(env, calls[..|calls| - 1]);
      RunCallExplained(env, RunProgram(env, calls[..|calls| - 1]), NO_LOCALS, calls[|calls| - 1]);
    }
  }

  // ----- The effect of a run -----

  /** The writes around transactions of the first n attempts, attempt after attempt. */
  ghost function AttemptPools(atts: seq<Att>, n: nat): seq<(nat, int)>
    requires n <= |atts|
    requires forall k :: 0 <= k < |atts| ==> |atts[k].start.trace| <= |atts[k].result.w.trace|
  {
    if n == 0 then []
    else
      var a := atts[n - 1];
      AttemptPools(atts, n - 1) + PoolWrites(a.result.w.trace[|a.start.trace|..])
  }

  ghost predicate TracesGrow(atts: seq<Att>) {
    forall k :: 0 <= k < |atts| ==> atts[k].start.trace <= atts[k].result.w.trace
  }

  lemma ChainTracesGrow(env: Env, w: World, l: Locals, call: Call, atts: seq<Att>)
    requires ValidEnv(env) && env.retrier.Some? && Chain(env, w, l, call, 0, atts)
    ensures TracesGrow(atts)
  {
    hide Attempt, Waits;
  }

  lemma {:induction false} PoolsBefore(env: Env, w: World, l: Locals, call: Call, atts: seq<Att>, k: nat)
    requires ValidEnv(env) && env.retrier.Some? && Explained(w)
    requires Chain(env, w, l, call, 0, atts) && TracesGrow(atts) && k < |atts|
    ensures Explained(atts[k].start) && Explained(atts[k].result.w)
    ensures atts[k].start.pools == w.pools + AttemptPools(atts, k)
    ensures atts[k].result.w.pools == w.pools + AttemptPools(atts, k + 1)
  {
    hide Attempt, Errors.NeedRetry, Delay, Grows, Explained, PoolWrites;
    var a := atts[k];
    if k == 0 {
    } else {
      var b := atts[k - 1];
      PoolsBefore(env, w, l, call, atts, k - 1);
      assert Waits(env, l, call, 0 + (k - 1), b, a);
      QuietExplained(b.result.w, Waited(Delay(env, b.result.w, k - 1)), a.start);
    }
    AttemptExplained(env, a.start, l, call);
    PoolsAdded(a.start, a.result.w);
  }

  /** What comes into the log of writes around transactions is what the trace says. */
  lemma PoolsAdded(w: World, w': World)
    requires Explained(w) && Explained(w') && w.trace <= w'.trace
    ensures w'.pools == w.pools + PoolWrites(w'.trace[|w.trace|..])
  {
    hide Replay, WritesTo, Only;
    assert w'.trace == w.trace + w'.trace[|w.trace|..];
    PoolWritesAppend(w.trace, w'.trace[|w.trace|..]);
  }

  lemma PlainPools(env: Env, w: World, l: Locals, call: Call)
    requires ValidEnv(env) && WellFormed(w) && Explained(w)
    ensures var atts := [Att(w, Attempt(env, w, l, call))];
            TracesGrow(atts) && Attempt(env, w, l, call).w.pools == w.pools + AttemptPools(atts, 1)
  {
    hide Attempt, Grows, Explained, PoolWrites;
    var w' := Attempt(env, w, l, call).w;
    AttemptExplained(env, w, l, call);
    GrownTrace(w, w');
    PoolsAdded(w, w');
    assert AttemptPools([Att(w, Attempt(env, w, l, call))], 0) == [];
  }

  lemma RetriedPools(env: Env, w: World, l: Locals, call: Call)
    requires ValidEnv(env) && WellFormed(w) && Explained(w) && env.retrier.Some?
    ensures var atts := Attempts(env, w, l, call, 0);
            TracesGrow(atts) && Do(env, w, l, call, 0, None).w.pools == w.pools + AttemptPools(atts, |atts|)
  {
    hide Attempt, Ends, Chain, Grows, Explained, PoolWrites, Do, Attempts;
    DoRefines(env, w, l, call, 0, None);
    var atts := Attempts(env, w, l, call, 0);
    ChainAttempts(env, w, l, call, atts);
    ChainTracesGrow(env, w, l, call, atts);
    if atts != [] {
      PoolsBefore(env, w, l, call, atts, |atts| - 1);
      EndKeepsLogs(env, call, |atts| - 1, Last(atts), Do(env, w, l, call, 0, None));
    }
  }

  lemma ChainAttempts(env: Env, w: World, l: Locals, call: Call, atts: seq<Att>)
    requires ValidEnv(env) && env.retrier.Some? && Chain(env, w, l, call, 0, atts)
    ensures |atts| <= Budget(env)
    ensures forall k :: 0 <= k < |atts| ==>
              WellFormed(atts[k].start) && atts[k].result == Attempt(env, atts[k].start, l, call)
  {
    hide Attempt, Waits;
  }

  /** Nothing after the last attempt touches the logs. */
  lemma EndKeepsLogs(env: Env, call: Call, i: nat, a: Att, r: CallResult)
    requires ValidEnv(env) && env.retrier.Some? && i < Budget(env) && Ends(env, call, i, a, r)
    ensures r.w.primary == a.result.w.primary && r.w.pools == a.result.w.pools
  {
    hide Errors.NeedRetry, Delay;
  }

  /** Writes around transactions are never undone: in the end they are there, attempt after attempt. */
  lemma PoolsOfRun(env: Env, w: World, l: Locals, call: Call)
    requires ValidEnv(env) && WellFormed(w) && Explained(w)
    ensures var atts := History(env, w, l, call);
            TracesGrow(atts) && RunCall(env, w, l, call).w.pools == w.pools + AttemptPools(atts, |atts|)
  {
    hide Attempt, Explained, TracesGrow, AttemptPools, Do, Attempts;
    if env.retrier.None? {
      PlainPools(env, w, l, call);
    } else {
      RetriedPools(env, w, l, call);
    }
  }

  lemma GrownTrace(w: World, w': World)
    requires Grows(w, w')
    ensures w.trace <= w'.trace
  {
  }

  // ----- The whole primary log of a run -----

  /** What the runs nested in an attempt's job committed, in order. */
  ghost function NestedOf(env: Env, l: Locals, call: Call, start: World): seq<(TxId, int)>
    requires ValidEnv(env) && WellFormed(start)
  {
    if call.TxCall? && !Began(env, call, start) then []
    else
      var w := JobOutcome(env, l, call, start).0;
      if |start.primary| <= |w.primary| then w.primary[|start.primary|..] else []
  }

  /** What the jobs of the first n attempts left in the primary log through nested runs, attempt after attempt. */
  ghost function NestedLog(env: Env, l: Locals, call: Call, atts: seq<Att>, n: nat): seq<(TxId, int)>
    requires ValidEnv(env) && n <= |atts|
    requires forall k :: 0 <= k < |atts| ==> WellFormed(atts[k].start)
  {
    if n == 0 then [] else NestedLog(env, l, call, atts, n - 1) + NestedOf(env, l, call, atts[n - 1].start)
  }

  /** What a successful attempt adds to the primary log itself. */
  function Added(call: Call, start: World, r: CallResult): seq<(TxId, int)> {
    if call.TxCall? && r.err.None? && |start.txs| < |r.w.txs| then
      Tagged(|start.txs|, r.w.txs[|start.txs|].buffer)
    else []
  }

  lemma JobLog(env: Env, l: Locals, call: Call, start: World)
    requires ValidEnv(env) && WellFormed(start) && (call.TxCall? ==> Began(env, call, start))
    ensures JobOutcome(env, l, call, start).0.primary == start.primary + NestedOf(env, l, call, start)
  {
    hide Exec;
    assert Grows(JobStart(env, l, call, start).0, JobOutcome(env, l, call, start).0);
  }

  lemma AttemptLog(env: Env, w: World, l: Locals, call: Call)
    requires ValidEnv(env) && WellFormed(w)
    ensures var r := Attempt(env, w, l, call);
            r.w.primary == w.primary + NestedOf(env, l, call, w) + Added(call, w, r)
  {
    hide Grows, Exec, NestedOf;
    var r := Attempt(env, w, l, call);
    if call.NoTxCall? {
      assert r == RunNoTx(env, w, l, call);
      JobLog(env, l, call, w);
    } else {
      RunTxLog(env, w, l, call);
    }
  }

  lemma RunTxLog(env: Env, w: World, l: Locals, call: Call)
    requires ValidEnv(env) && WellFormed(w) && call.TxCall?
    ensures var r := RunTx(env, w, l, call);
            r.w.primary == w.primary + NestedOf(env, l, call, w) + Added(call, w, r)
  {
    hide Grows, Exec, FinishTx;
    if Began(env, call, w) {
      JobLog(env, l, call, w);
      var w1 := JobStart(env, l, call, w).0;
      var (w2, o) := JobOutcome(env, l, call, w);
      TransactionStaysActive(w1, w2, |w.txs|);
      ChannelStaysOpen(w1, w2, |w.chans|);
      FinishTxLog(env, w2, |w.txs|, |w.chans|, o);
    }
  }

  /** Only a commit that succeeds adds anything, and that is the buffer. */
  lemma FinishTxLog(env: Env, w: World, t: TxId, ch: ChanId, o: Outcome)
    requires t < |w.txs| && ch < |w.chans| && w.chans[ch] && w.txs[t].status == Active
    ensures var r := FinishTx(env, w, t, ch, o);
            && |r.w.txs| == |w.txs|
            && r.w.primary == w.primary + (if r.err.None? then Tagged(t, r.w.txs[t].buffer) else [])
  {
    hide Finishes;
  }

  lemma {:induction false} StartsLog(env: Env, w: World, l: Locals, call: Call, atts: seq<Att>, k: nat)
    requires ValidEnv(env) && env.retrier.Some?
    requires Chain(env, w, l, call, 0, atts) && k < |atts|
    ensures atts[k].start.primary == w.primary + NestedLog(env, l, call, atts, k)
  {
    hide Attempt, Errors.NeedRetry, Delay, Grows, Tagged, NestedOf;
    if k == 0 {
      assert NestedLog(env, l, call, atts, 0) == [];
    } else {
      StartsLog(env, w, l, call, atts, k - 1);
      assert Waits(env, l, call, 0 + (k - 1), atts[k - 1], atts[k]);
      AttemptLog(env, atts[k - 1].start, l, call);
    }
  }

  lemma DoLog(env: Env, w: World, l: Locals, call: Call)
    requires ValidEnv(env) && WellFormed(w) && env.retrier.Some?
    ensures var atts := Attempts(env, w, l, call, 0);
            && (forall k :: 0 <= k < |atts| ==> WellFormed(atts[k].start))
            && Do(env, w, l, call, 0, None).w.primary == w.primary + NestedLog(env, l, call, atts, |atts|) +
                 (if atts == [] then [] else Added(call, Last(atts).start, Last(atts).result))
  {
    hide Attempt, Ends, Chain, Grows, Added, Do, Attempts, NestedOf;
    DoRefines(env, w, l, call, 0, None);
    var atts := Attempts(env, w, l, call, 0);
    ChainAttempts(env, w, l, call, atts);
    if atts == [] {
      assert NestedLog(env, l, call, atts, 0) == [];
    } else {
      StartsLog(env, w, l, call, atts, |atts| - 1);
      AttemptLog(env, Last(atts).start, l, call);
      EndKeepsLogs(env, call, |atts| - 1, Last(atts), Do(env, w, l, call, 0, None));
    }
  }

  /** The transaction of the last attempt, which is the one that may be committed. */
  ghost function Winner(atts: seq<Att>): TxId
    requires atts != []
  {
    |Last(atts).start.txs|
  }

  /** What the run itself, as opposed to the runs nested in it, adds to the primary log. */
  ghost function OwnLog(call: Call, atts: seq<Att>, r: CallResult): seq<(TxId, int)> {
    if r.err.None? && call.TxCall? && atts != [] then Tagged(Winner(atts), WritesTo(r.w.trace, Winner(atts))) else []
  }

  /** The primary log after any run, in full: what was there before, what nested runs committed in each attempt,
      also in attempts that failed, and, if the run returns nil, the winning transaction's writes, all of them. */
  lemma RunLog(env: Env, w: World, l: Locals, call: Call)
    requires ValidEnv(env) && WellFormed(w) && Explained(w)
    ensures var atts := History(env, w, l, call);
            var r := RunCall(env, w, l, call);
            && (forall k :: 0 <= k < |atts| ==> WellFormed(atts[k].start))
            && (r.err.None? ==> atts != [])
            && r.w.primary == w.primary + NestedLog(env, l, call, atts, |atts|) + OwnLog(call, atts, r)
  {
    hide Attempt, Errors.NeedRetry, Grows, Do, Attempts, Replay, PoolWrites, WritesTo, Only, NestedOf;
    var atts := History(env, w, l, call);
    var r := RunCall(env, w, l, call);
    RetryContract(env, w, l, call);
    RunCallExplained(env, w, l, call);
    if env.retrier.None? {
      AttemptLog(env, w, l, call);
      assert NestedLog(env, l, call, atts, 1) == NestedLog(env, l, call, atts, 0) + NestedOf(env, l, call, w);
    } else {
      DoLog(env, w, l, call);
    }
    if r.err.None? && call.TxCall? {
      WinnerWrites(env, w, l, call);
    }
  }

  /** The winning attempt's buffer is what the trace of the whole run wrote to its transaction. */
  lemma WinnerWrites(env: Env, w: World, l: Locals, call: Call)
    requires ValidEnv(env) && WellFormed(w) && Explained(w) && call.TxCall?
    requires RunCall(env, w, l, call).err.None?
    ensures var atts := History(env, w, l, call);
            && atts != []
            && Added(call, Last(atts).start, Last(atts).result) == OwnLog(call, atts, RunCall(env, w, l, call))
  {
    hide Attempt, Errors.NeedRetry, Grows, RunCall, History, Replay, PoolWrites, WritesTo, Only;
    var atts := History(env, w, l, call);
    var r := RunCall(env, w, l, call);
    RetryContract(env, w, l, call);
    RunCallExplained(env, w, l, call);
    HistoryGrows(env, w, l, call, |atts| - 1);
    CommittedExactlyOnSuccess(env, w, l, call, |atts| - 1);
    AttemptEnds(env, l, call, Last(atts).start);
    GrowsBuffers(Last(atts).result.w, r.w, Winner(atts));
  }

  /** What nested runs left is never of an attempt's own transaction. */
  lemma NestedIsNotOwn(env: Env, w: World, l: Locals, call: Call, k: nat)
    requires ValidEnv(env) && WellFormed(w) && Explained(w) && k < |History(env, w, l, call)|
    requires Began(env, call, History(env, w, l, call)[k].start)
    requires forall j :: 0 <= j < |History(env, w, l, call)| ==> WellFormed(History(env, w, l, call)[j].start)
    ensures var atts := History(env, w, l, call);
            Only(NestedLog(env, l, call, atts, |atts|), |atts[k].start.txs|) == []
  {
    hide Attempt, Errors.NeedRetry, Grows, RunCall, History, Replay, PoolWrites, WritesTo, Only, NestedLog;
    var atts := History(env, w, l, call);
    var r, t := RunCall(env, w, l, call), |atts[k].start.txs|;
    var nested := NestedLog(env, l, call, atts, |atts|);
    RunLog(env, w, l, call);
    RunCallExplained(env, w, l, call);
    CommittedExactlyOnSuccess(env, w, l, call, k);
    OnlyAppend(w.primary + nested, OwnLog(call, atts, r), t);
    OnlyAppend(w.primary, nested, t);
    if r.err.None? {
      OnlyTagged(Winner(atts), WritesTo(r.w.trace, Winner(atts)), t);
    }
  }

  /** And it consists of nested transactions, whole: of each that was begun and committed inside the attempt's
      job all writes, and nothing else. */
  lemma NestedIsWhole(env: Env, l: Locals, call: Call, start: World, t: TxId)
    requires ValidEnv(env) && WellFormed(start) && Explained(start) && (call.TxCall? ==> Began(env, call, start))
    ensures var w0 := JobStart(env, l, call, start).0;
            var w := JobOutcome(env, l, call, start).0;
            Only(NestedOf(env, l, call, start), t) ==
              if |w0.txs| <= t < |w.txs| && w.txs[t].status == Committed then WritesTo(w.trace, t) else []
  {
    hide Exec, Grows, Only, NestedOf, Replay, PoolWrites, WritesTo;
    var (w0, l0) := JobStart(env, l, call, start);
    var w := JobOutcome(env, l, call, start).0;
    JobStartExplained(env, l, call, start);
    ExecExplained(env, w0, l0, call.body);
    JobLog(env, l, call, start);
    OnlyAppend(start.primary, NestedOf(env, l, call, start), t);
    if t < |w0.txs| {
      OldTransactionKept(w0, w, t);
    }
  }

  lemma JobStartExplained(env: Env, l: Locals, call: Call, start: World)
    requires Explained(start)
    ensures Explained(JobStart(env, l, call, start).0)
  {
    hide Explained;
    var w0 := JobStart(env, l, call, start).0;
    if call.TxCall? {
      OpenTxExplained(env, start, call.txOpts.(ctx := Some(CallCtx(call))), CallCtx(call));
    } else {
      QuietExplained(start, w0.trace[|start.trace|], w0);
    }
  }

  lemma OldTransactionKept(w: World, w': World, t: TxId)
    requires Grows(w, w') && t < |w.txs|
    ensures t < |w'.txs| && w'.txs[t].status == w.txs[t].status
    ensures w.txs[t].status == Committed ==> w'.txs[t].buffer == w.txs[t].buffer
  {
    assert TxGrows(w.txs[t], w'.txs[t]);
  }

  /** Atomicity under retry, of the attempts' own transactions: a run that returns an error leaves none of their
      writes in the primary log and no commit of theirs in the trace; one that returns nil leaves exactly all
      those of the last. All else that the log holds then was there before or was committed by nested runs, which
      are runs of their own: a failure around them does not undo them. Writes around transactions are the same as
      ever: those of every attempt, in order. */
  lemma RunIsAtomic(env: Env, w: World, l: Locals, call: Call, k: nat)
    requires ValidEnv(env) && WellFormed(w) && Explained(w) && k < |History(env, w, l, call)|
    ensures var r := RunCall(env, w, l, call);
            var atts := History(env, w, l, call);
            var t := |atts[k].start.txs|;
            && (forall j :: 0 <= j < |atts| ==> WellFormed(atts[j].start))
            && r.w.primary == w.primary + NestedLog(env, l, call, atts, |atts|) + OwnLog(call, atts, r)
            && (Began(env, call, atts[k].start) ==>
                  && Only(r.w.primary, t)
                     == (if r.err.None? && k == |atts| - 1 then WritesTo(r.w.trace, t) else [])
                  && Only(NestedLog(env, l, call, atts, |atts|), t) == []
                  && (CommitOk(t) in r.w.trace <==> r.err.None? && k == |atts| - 1))
            && TracesGrow(atts)
            && r.w.pools == w.pools + AttemptPools(atts, |atts|)
  {
    hide RunCall, History, Replay, PoolWrites, WritesTo, Only, AttemptPools, NestedLog;
    RunCallExplained(env, w, l, call);
    CommittedExactlyOnSuccess(env, w, l, call, k);
    PoolsOfRun(env, w, l, call);
    RunLog(env, w, l, call);
    if Began(env, call, History(env, w, l, call)[k].start) {
      NestedIsNotOwn(env, w, l, call, k);
    }
  }

  /** An outer run that panics after a run nested in it returned nil. */
  function NestThenPanic(opts: TxOpts, v: Errors.PanicValue): Call {
    TxCall(opts, Run(TxCall(opts, Return(NilResult, NilError)), Raise(v)))
  }

  lemma PlainTx(env: Env, w: World, l: Locals, call: Call)
    requires ValidEnv(env) && WellFormed(w) && env.retrier.None? && call.TxCall?
    ensures RunCall(env, w, l, call) == RunTx(env, w, l, call)
  {
    hide RunTx;
  }

  lemma EmptyRunCommits(env: Env, w: World, l: Locals, opts: TxOpts)
    requires ValidEnv(env) && WellFormed(w) && env.begin(Now(w)).None? && env.commit(Now(w) + 2).CommitDone?
    ensures var r := RunTx(env, w, l, TxCall(opts, Return(NilResult, NilError)));
            && r.err.None? && r.w.txs == w.txs + [Tx(Committed, [])]
            && |r.w.trace| == Now(w) + 4 && r.w.trace[Now(w) + 2] == CommitOk(|w.txs|)
            && r.w.trace[Now(w) + 1].Enter? && r.w.trace[Now(w) + 3].Closed? && r.w.trace[Now(w)].BeginOk?
  {
    hide Grows;
    var raw := OrBackground(opts.ctx);
    var w1 := OpenTx(env, w, opts.(ctx := Some(raw)), raw);
    var l1 := BindCtx(l, |w.ctxs|);
    assert Exec(env, w1, l1, Return(NilResult, NilError)) == (w1, Returned(None, None));
  }

  lemma PanickedRunRollsBack(env: Env, w: World, l: Locals, call: Call)
    requires ValidEnv(env) && WellFormed(w) && Began(env, call, w) && JobOutcome(env, l, call, w).1.Panicked?
    ensures var r := RunTx(env, w, l, call);
            var w2 := JobOutcome(env, l, call, w).0;
            && r.err.Some? && |w.txs| < |w2.txs| && |w.chans| < |w2.chans| && w2.chans[|w.chans|]
            && r.w == Close(Rollback(env, w2, |w.txs|), |w.chans|)
  {
    hide Exec, Grows;
    var w1, w2 := JobStart(env, l, call, w).0, JobOutcome(env, l, call, w).0;
    TransactionStaysActive(w1, w2, |w.txs|);
    ChannelStaysOpen(w1, w2, |w.chans|);
  }

  /** What its job does: the nested run is the second transaction and is committed. */
  lemma NestThenPanicJob(env: Env, opts: TxOpts, v: Errors.PanicValue)
    requires ValidEnv(env) && env.retrier.None?
    requires forall n :: env.begin(n).None? && env.commit(n).CommitDone?
    ensures var (w, o) := JobOutcome(env, NO_LOCALS, NestThenPanic(opts, v), EMPTY_WORLD);
            && o == Panicked(v) && w.txs == [Tx(Active, []), Tx(Committed, [])]
            && |w.trace| == 6 && w.trace[4] == CommitOk(1)
            && forall i :: 0 <= i < 6 && i != 4 ==> !w.trace[i].CommitOk?
  {
    hide Grows, RunCall, RunTx;
    var call := NestThenPanic(opts, v);
    var (w1, l1) := JobStart(env, NO_LOCALS, call, EMPTY_WORLD);
    var c := RunCall(env, w1, l1, call.body.call);
    EmptyRunCommits(env, w1, l1, opts);
    PlainTx(env, w1, l1, call.body.call);
    assert Exec(env, c.w, BindReturn(l1, c), Raise(v)) == (c.w, Panicked(v));
    assert w1.trace <= c.w.trace by {
      GrownTrace(w1, c.w);
    }
  }

  /** So a failed run can leave a commit behind: that of a run nested in it. */
  lemma NestedCommitSurvives(env: Env, opts: TxOpts, v: Errors.PanicValue)
    requires ValidEnv(env) && env.retrier.None?
    requires forall n :: env.begin(n).None? && env.commit(n).CommitDone?
    ensures var r := RunCall(env, EMPTY_WORLD, NO_LOCALS, NestThenPanic(opts, v));
            && r.err.Some? && |r.w.txs| == 2
            && r.w.txs[0].status == Discarded && r.w.txs[1].status == Committed
            && CommitOk(1) in r.w.trace && CommitOk(0) !in r.w.trace
  {
    hide Grows, RunCall, RunTx, JobOutcome;
    var call := NestThenPanic(opts, v);
    NestThenPanicJob(env, opts, v);
    PanickedRunRollsBack(env, EMPTY_WORLD, NO_LOCALS, call);
    PlainTx(env, EMPTY_WORLD, NO_LOCALS, call);
    assert RunCall(env, EMPTY_WORLD, NO_LOCALS, call).w.trace[4] == CommitOk(1);
  }

  /** A job without nested runs. */
  predicate Flat(job: Job) {
    match job
    case Return(_, _) => true
    case Raise(_) => true
    case GetDB(_, next) => Flat(next)
    case DeriveNoTx(_, next) => Flat(next)
    case Write(_, _, next) => Flat(next)
    case IfError(_, failed, passed) => Flat(failed) && Flat(passed)
    case Invoke(_, branches) => forall b | b in branches :: Flat(b)
    case Run(_, _) => false
  }

  lemma {:induction false} FlatJobCommitsNothing(env: Env, w: World, l: Locals, job: Job)
    requires ValidEnv(env) && WellFormed(w) && Flat(job)
    ensures Exec(env, w, l, job).0.primary == w.primary
    decreases job
  {
    var (w1, p) := Act(env, w, l, job);
    if p.GoesOn? {
      FlatJobCommitsNothing(env, w1, p.locals, p.next);
    }
  }

  lemma {:induction false} FlatNestsNothing(env: Env, l: Locals, call: Call, atts: seq<Att>, n: nat)
    requires ValidEnv(env) && Flat(call.body) && n <= |atts|
    requires forall k :: 0 <= k < |atts| ==> WellFormed(atts[k].start)
    ensures NestedLog(env, l, call, atts, n) == []
  {
    hide Flat, Exec, NestedOf;
    if n == 0 {
    } else {
      FlatNestsNothing(env, l, call, atts, n - 1);
      FlatJobNestsNothing(env, l, call, atts[n - 1].start);
    }
  }

  lemma FlatJobNestsNothing(env: Env, l: Locals, call: Call, start: World)
    requires ValidEnv(env) && Flat(call.body) && WellFormed(start)
    ensures NestedOf(env, l, call, start) == []
  {
    hide Flat, Exec, Grows;
    if call.NoTxCall? || Began(env, call, start) {
      var (w1, l1) := JobStart(env, l, call, start);
      FlatJobCommitsNothing(env, w1, l1, call.body);
      assert w1.primary == start.primary;
    }
  }

  /** So without nested runs the primary log is the initial one when the run returns an error, and the initial one
      plus exactly the winning transaction's writes when it returns nil. */
  lemma FlatRunIsAtomic(env: Env, w: World, l: Locals, call: Call)
    requires ValidEnv(env) && WellFormed(w) && Explained(w) && Flat(call.body)
    ensures var atts := History(env, w, l, call);
            var r := RunCall(env, w, l, call);
            && r.w.primary == w.primary + OwnLog(call, atts, r)
            && (r.err.None? ==> atts != [])
  {
    hide RunCall, History, NestedLog, OwnLog, Flat;
    var atts := History(env, w, l, call);
    RunLog(env, w, l, call);
    FlatNestsNothing(env, l, call, atts, |atts|);
  }

  lemma GrowsBuffers(w: World, w': World, t: TxId)
    requires Grows(w, w') && t < |w.txs| && w.txs[t].status != Active
    ensures |w.txs| <= |w'.txs| && w'.txs[t].buffer == w.txs[t].buffer
  {
    assert TxGrows(w.txs[t], w'.txs[t]);
  }
}
