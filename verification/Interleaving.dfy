/** Any number of runs on one database, their steps interleaved in any order. Runs whose jobs use only their own
    contexts and handles do not notice each other: each goes the way it goes alone. */
module Interleaving {
  import opened Options
  import opened Errors
  import opened World
  import opened Interpreter
  import opened Machine
  import Retrier

  // ----- Threads sharing a world -----

  /** A thread has its own surroundings, which answer at its own times, and its own record of events. */
  datatype Thread = Thread(env: Env, trace: seq<Event>, control: Control, kont: Kont)

  /** Channels, contexts, transactions and logs are shared. */
  datatype System = System(shared: World, threads: seq<Thread>)

  ghost predicate ValidSystem(m: System) {
    WellFormed(m.shared) && forall i :: 0 <= i < |m.threads| ==> ValidEnv(m.threads[i].env)
  }

  /** What thread i acts on. */
  function View(m: System, i: nat): State
    requires i < |m.threads|
  {
    var t := m.threads[i];
    State(m.shared.(trace := t.trace), t.control, t.kont)
  }

  function StepThread(m: System, i: nat): (m': System)
    requires ValidSystem(m) && i < |m.threads|
    ensures ValidSystem(m') && |m'.threads| == |m.threads|
  {
    MicroWellFormed(m.threads[i].env, View(m, i));
    var s := Micro(m.threads[i].env, View(m, i));
    var t := Thread(m.threads[i].env, s.w.trace, s.control, s.kont);
    System(s.w.(trace := []), m.threads[i := t])
  }

  /** A schedule says which thread steps next. */
  ghost predicate ValidSchedule(sched: seq<nat>, n: nat) {
    forall j :: 0 <= j < |sched| ==> sched[j] < n
  }

  function RunSchedule(m: System, sched: seq<nat>): (m': System)
    requires ValidSystem(m) && ValidSchedule(sched, |m.threads|)
    ensures ValidSystem(m') && |m'.threads| == |m.threads|
  {
    if sched == [] then m
    else
      var before := sched[..|sched| - 1];
      StepThread(RunSchedule(m, before), sched[|sched| - 1])
  }

  function Turns(sched: seq<nat>, i: nat): nat {
    if sched == [] then 0 else Turns(sched[..|sched| - 1], i) + (if sched[|sched| - 1] == i then 1 else 0)
  }

  // ----- Jobs that keep to themselves -----

  predicate OwnJob(job: Job) {
    match job
    case Return(_, _) => true
    case Raise(_) => true
    case GetDB(r, next) => r.Own? && OwnJob(next)
    case DeriveNoTx(r, next) => r.Own? && OwnJob(next)
    case Write(r, _, next) => r.Own? && OwnJob(next)
    case IfError(_, failed, passed) => OwnJob(failed) && OwnJob(passed)
    case Invoke(_, branches) => forall i :: 0 <= i < |branches| ==> OwnJob(branches[i])
    case Run(call, next) => OwnJob(call.body) && OwnJob(next)
  }

  predicate OwnKont(k: Kont) {
    match k
    case Finished => true
    case Resume(_, next, rest) => OwnJob(next) && OwnKont(rest)
    case InTx(_, _, _, _, rest) => OwnKont(rest)
    case InNoTx(_, _, _, rest) => OwnKont(rest)
    case Round(_, call, _, rest) => OwnJob(call.body) && OwnKont(rest)
  }

  predicate OwnControl(c: Control) {
    match c
    case Executing(_, job) => OwnJob(job)
    case Calling(_, call) => OwnJob(call.body)
    case Trying(_, call, _) => OwnJob(call.body)
    case Attempting(_, call) => OwnJob(call.body)
    case _ => true
  }

  // ----- The same up to numbering -----

  /** The numbers in the shared world of the channels, contexts and transactions a thread made alone. */
  datatype Names = Names(chans: seq<nat>, ctxs: seq<nat>, txs: seq<nat>)

  const NO_NAMES := Names([], [], [])

  ghost predicate Id(ids: seq<nat>, a: nat, b: nat) {
    a < |ids| && ids[a] == b
  }

  ghost predicate SameDB(r: Names, a: DB, b: DB) {
    if a.Pool? then b == a else b.TxHandle? && Id(r.txs, a.tx, b.tx)
  }

  ghost predicate SameMaybeDB(r: Names, a: Option<DB>, b: Option<DB>) {
    a.Some? == b.Some? && (a.Some? ==> SameDB(r, a.value, b.value))
  }

  ghost predicate SameCtx(r: Names, a: Ctx, b: Ctx) {
    && a.raw == b.raw && Id(r.chans, a.ch, b.ch)
    && SameMaybeDB(r, a.db, b.db) && SameMaybeDB(r, a.fallbackDB, b.fallbackDB)
  }

  ghost predicate SameLocals(r: Names, a: Locals, b: Locals) {
    && a.errs == b.errs && a.results == b.results
    && |a.ctxs| == |b.ctxs| && (forall i :: 0 <= i < |a.ctxs| ==> Id(r.ctxs, a.ctxs[i], b.ctxs[i]))
    && |a.dbs| == |b.dbs| && (forall i :: 0 <= i < |a.dbs| ==> SameDB(r, a.dbs[i], b.dbs[i]))
  }

  ghost predicate SameEvent(r: Names, a: Event, b: Event) {
    match a
    case BeginOk(tx, opts) => b.BeginOk? && Id(r.txs, tx, b.tx) && b.opts == opts
    case Enter(ch, root, ctx) => b.Enter? && Id(r.chans, ch, b.ch) && Id(r.ctxs, root, b.root) && SameCtx(r, ctx, b.ctx)
    case Got(c, ch, db) => b.Got? && Id(r.ctxs, c, b.c) && Id(r.chans, ch, b.ch) && SameDB(r, db, b.db)
    case Refused(c, ch) => b.Refused? && Id(r.ctxs, c, b.c) && Id(r.chans, ch, b.ch)
    case Derived(c, from) => b.Derived? && Id(r.ctxs, c, b.c) && Id(r.ctxs, from, b.from)
    case Wrote(db, v) => b.Wrote? && SameDB(r, db, b.db) && b.v == v
    case WriteErr(db, e) => b.WriteErr? && SameDB(r, db, b.db) && b.err == e
    case CommitOk(tx) => b.CommitOk? && Id(r.txs, tx, b.tx)
    case CommitErr(tx, e) => b.CommitErr? && Id(r.txs, tx, b.tx) && b.err == e
    case CommitPanic(tx, v) => b.CommitPanic? && Id(r.txs, tx, b.tx) && b.value == v
    case RolledBack(tx, x) => b.RolledBack? && Id(r.txs, tx, b.tx) && b.result == x
    case Closed(ch) => b.Closed? && Id(r.chans, ch, b.ch)
    case _ => b == a
  }

  ghost predicate SameTrace(r: Names, a: seq<Event>, b: seq<Event>) {
    |a| == |b| && forall i :: 0 <= i < |a| ==> SameEvent(r, a[i], b[i])
  }

  ghost predicate SameKont(r: Names, a: Kont, b: Kont) {
    match a
    case Finished => b.Finished?
    case Resume(l, next, rest) => b.Resume? && SameLocals(r, l, b.locals) && b.next == next && SameKont(r, rest, b.rest)
    case InTx(tx, ch, opts, time, rest) =>
      && b.InTx? && Id(r.txs, tx, b.tx) && Id(r.chans, ch, b.ch)
      && b.txOpts == opts && b.time == time && SameKont(r, rest, b.rest)
    case InNoTx(ch, opts, time, rest) =>
      b.InNoTx? && Id(r.chans, ch, b.ch) && b.noTxOpts == opts && b.time == time && SameKont(r, rest, b.rest)
    case Round(l, call, i, rest) =>
      b.Round? && SameLocals(r, l, b.locals) && b.call == call && b.i == i && SameKont(r, rest, b.rest)
  }

  ghost predicate SameControl(r: Names, a: Control, b: Control) {
    match a
    case Executing(l, job) => b.Executing? && SameLocals(r, l, b.locals) && b.job == job
    case Calling(l, call) => b.Calling? && SameLocals(r, l, b.locals) && b.call == call
    case Trying(l, call, i) => b.Trying? && SameLocals(r, l, b.locals) && b.call == call && b.i == i
    case Attempting(l, call) => b.Attempting? && SameLocals(r, l, b.locals) && b.call == call
    case _ => b == a
  }

  /** The world u a thread has alone, found again inside world w. */
  ghost predicate SameWorld(r: Names, u: World, w: World) {
    && WellFormed(u) && WellFormed(w)
    && |r.chans| == |u.chans| && |r.ctxs| == |u.ctxs| && |r.txs| == |u.txs|
    && (forall i :: 0 <= i < |r.chans| ==> r.chans[i] < |w.chans| && w.chans[r.chans[i]] == u.chans[i])
    && (forall i :: 0 <= i < |r.txs| ==> r.txs[i] < |w.txs| && w.txs[r.txs[i]] == u.txs[i])
    && (forall i :: 0 <= i < |r.ctxs| ==> r.ctxs[i] < |w.ctxs| && SameCtx(r, u.ctxs[i], w.ctxs[r.ctxs[i]]))
    && (forall i, j :: 0 <= i < j < |r.chans| ==> r.chans[i] != r.chans[j])
    && (forall i, j :: 0 <= i < j < |r.txs| ==> r.txs[i] != r.txs[j])
    && SameTrace(r, u.trace, w.trace)
  }

  ghost predicate Same(r: Names, s: State, t: State) {
    SameWorld(r, s.w, t.w) && SameControl(r, s.control, t.control) && SameKont(r, s.kont, t.kont)
  }

  ghost predicate Own(s: State) {
    OwnControl(s.control) && OwnKont(s.kont)
  }

  /** More names, all of them new to world w. */
  ghost predicate Extends(r: Names, r': Names, w: World) {
    && r.chans <= r'.chans && r.ctxs <= r'.ctxs && r.txs <= r'.txs
    && (forall i :: |r.chans| <= i < |r'.chans| ==> r'.chans[i] >= |w.chans|)
    && (forall i :: |r.txs| <= i < |r'.txs| ==> r'.txs[i] >= |w.txs|)
  }

  lemma {:induction false} SameKontMore(r: Names, r': Names, w: World, a: Kont, b: Kont)
    requires SameKont(r, a, b) && Extends(r, r', w)
    ensures SameKont(r', a, b)
  {
    match a
    case Finished =>
    case Resume(_, _, rest) => SameKontMore(r, r', w, rest, b.rest);
    case InTx(_, _, _, _, rest) => SameKontMore(r, r', w, rest, b.rest);
    case InNoTx(_, _, _, rest) => SameKontMore(r, r', w, rest, b.rest);
    case Round(_, _, _, rest) => SameKontMore(r, r', w, rest, b.rest);
  }

  lemma SameTraceMore(r: Names, r': Names, w: World, a: seq<Event>, b: seq<Event>)
    requires SameTrace(r, a, b) && Extends(r, r', w)
    ensures SameTrace(r', a, b)
  {
    forall i | 0 <= i < |a| ensures SameEvent(r', a[i], b[i]) {
      assert SameEvent(r, a[i], b[i]);
    }
  }

  lemma SameTraceLog(r: Names, a: seq<Event>, b: seq<Event>, e: Event, e': Event)
    requires SameTrace(r, a, b) && SameEvent(r, e, e')
    ensures SameTrace(r, a + [e], b + [e'])
  {
  }

  // ----- One step of a thread, alone and among others -----

  /** Logging matching events keeps the worlds the same. */
  lemma LogSame(r: Names, u: World, w: World, e: Event, e': Event)
    requires SameWorld(r, u, w) && SameEvent(r, e, e')
    ensures SameWorld(r, Log(u, e), Log(w, e'))
  {
    hide SameEvent;
    SameTraceLog(r, u.trace, w.trace, e, e');
  }

  /** Changing the state of one transaction in both. */
  lemma SetTxSame(r: Names, u: World, w: World, t: TxId, t': TxId, tx: Tx)
    requires SameWorld(r, u, w) && Id(r.txs, t, t')
    ensures t < |u.txs| && t' < |w.txs| && w.txs[t'] == u.txs[t]
    ensures SameWorld(r, SetTx(u, t, tx), SetTx(w, t', tx))
  {
    hide SameTrace, SameCtx;
  }

  lemma LogsDoNotMatter(r: Names, u: World, w: World, u': World, w': World)
    requires SameWorld(r, u, w)
    requires u' == u.(primary := u'.primary, pools := u'.pools) && w' == w.(primary := w'.primary, pools := w'.pools)
    ensures SameWorld(r, u', w')
  {
    hide SameTrace, SameCtx;
  }

  lemma CommitSame(env: Env, r: Names, u: World, w: World, t: TxId, t': TxId)
    requires SameWorld(r, u, w) && Id(r.txs, t, t')
    ensures t < |u.txs| && t' < |w.txs| && Now(u) == Now(w)
    ensures SameWorld(r, Commit(env, u, t), Commit(env, w, t'))
  {
    hide SameWorld;
    TimesAgree(r, u, w);
    SetTxSame(r, u, w, t, t', u.txs[t]);
    var tx := u.txs[t].(status := if env.commit(Now(u)).CommitDone? then Committed else CommitFailed);
    SetTxSame(r, u, w, t, t', tx);
    var u1, w1 := SetTx(u, t, tx), SetTx(w, t', tx);
    var u2, w2 := Commit(env, u, t), Commit(env, w, t');
    LogsDoNotMatter(r, u1, w1, u1.(primary := u2.primary), w1.(primary := w2.primary));
    LogSame(r, u1.(primary := u2.primary), w1.(primary := w2.primary), u2.trace[|u.trace|], w2.trace[|w.trace|]);
  }

  lemma TimesAgree(r: Names, u: World, w: World)
    requires SameWorld(r, u, w)
    ensures Now(u) == Now(w) && WellFormed(u) && WellFormed(w)
    ensures |r.chans| == |u.chans| && |r.ctxs| == |u.ctxs| && |r.txs| == |u.txs|
    ensures forall t: nat, t': nat :: Id(r.txs, t, t') ==> t < |u.txs| && t' < |w.txs| && w.txs[t'] == u.txs[t]
    ensures forall c: nat, c': nat :: Id(r.chans, c, c') ==>
              c < |u.chans| && c' < |w.chans| && w.chans[c'] == u.chans[c]
    ensures forall c: nat, c': nat :: Id(r.ctxs, c, c') ==>
              c < |u.ctxs| && c' < |w.ctxs| && SameCtx(r, u.ctxs[c], w.ctxs[c'])
  {
  }

  lemma RollbackSame(env: Env, r: Names, u: World, w: World, t: TxId, t': TxId)
    requires SameWorld(r, u, w) && Id(r.txs, t, t')
    ensures t < |u.txs| && t' < |w.txs| && Now(u) == Now(w)
    ensures SameWorld(r, Rollback(env, u, t), Rollback(env, w, t'))
  {
    hide SameWorld;
    TimesAgree(r, u, w);
    var tx := u.txs[t].(status := Discarded);
    SetTxSame(r, u, w, t, t', tx);
    LogSame(r, SetTx(u, t, tx), SetTx(w, t', tx),
            RolledBack(t, env.rollback(Now(u))), RolledBack(t', env.rollback(Now(w))));
  }

  lemma CloseSame(r: Names, u: World, w: World, ch: ChanId, ch': ChanId)
    requires SameWorld(r, u, w) && Id(r.chans, ch, ch')
    ensures ch < |u.chans| && ch' < |w.chans| && w.chans[ch'] == u.chans[ch]
    ensures u.chans[ch] ==> SameWorld(r, Close(u, ch), Close(w, ch'))
  {
    if u.chans[ch] {
      var u1, w1 := u.(chans := u.chans[ch := false]), w.(chans := w.chans[ch' := false]);
      assert SameWorld(r, u1, w1) by {
        hide SameTrace, SameCtx;
      }
      LogSame(r, u1, w1, Closed(ch), Closed(ch'));
    }
  }

  lemma WriteSame(env: Env, r: Names, u: World, w: World, db: DB, db': DB, v: int)
    requires SameWorld(r, u, w) && SameDB(r, db, db')
    ensures SameWorld(r, ProviderWrite(env, u, db, v).0, ProviderWrite(env, w, db', v).0)
    ensures ProviderWrite(env, u, db, v).1 == ProviderWrite(env, w, db', v).1
  {
    hide SameWorld;
    TimesAgree(r, u, w);
    var (u2, e) := ProviderWrite(env, u, db, v);
    var (w2, e') := ProviderWrite(env, w, db', v);
    if e.Some? {
      LogSame(r, u, w, WriteErr(db, e.value), WriteErr(db', e.value));
    } else if db.Pool? {
      var u1, w1 := u.(pools := u2.pools), w.(pools := w2.pools);
      LogsDoNotMatter(r, u, w, u1, w1);
      LogSame(r, u1, w1, Wrote(db, v), Wrote(db', v));
    } else {
      var tx := u.txs[db.tx].(buffer := u.txs[db.tx].buffer + [v]);
      SetTxSame(r, u, w, db.tx, db'.tx, tx);
      LogSame(r, SetTx(u, db.tx, tx), SetTx(w, db'.tx, tx), Wrote(db, v), Wrote(db', v));
    }
  }

  // ----- Making contexts and transactions: new names -----

  function NameChan(r: Names, w: World): Names {
    r.(chans := r.chans + [|w.chans|], ctxs := r.ctxs + [|w.ctxs|])
  }

  lemma NewContextSame(r: Names, u: World, w: World, raw: RawCtx,
                       db: Option<DB>, db': Option<DB>, fallbackDB: Option<DB>)
    requires SameWorld(r, u, w) && SameMaybeDB(r, db, db') && (fallbackDB.Some? ==> fallbackDB.value.Pool?)
    ensures Extends(r, NameChan(r, w), w)
    ensures SameWorld(NameChan(r, w), NewContext(u, raw, db, fallbackDB), NewContext(w, raw, db', fallbackDB))
  {
    var r' := NameChan(r, w);
    SameTraceMore(r, r', w, u.trace, w.trace);
    var ctx, ctx' := Ctx(raw, db, fallbackDB, |u.chans|), Ctx(raw, db', fallbackDB, |w.chans|);
    var u1 := u.(chans := u.chans + [true], ctxs := u.ctxs + [ctx]);
    var w1 := w.(chans := w.chans + [true], ctxs := w.ctxs + [ctx']);
    assert SameCtx(r', ctx, ctx');
    assert SameWorld(r', u1, w1) by {
      hide SameTrace;
      forall i | 0 <= i < |r'.ctxs| ensures r'.ctxs[i] < |w1.ctxs| && SameCtx(r', u1.ctxs[i], w1.ctxs[r'.ctxs[i]]) {
        if i < |r.ctxs| {
          assert SameCtx(r, u.ctxs[i], w.ctxs[r.ctxs[i]]);
        }
      }
    }
    LogSame(r', u1, w1, Enter(|u.chans|, |u.ctxs|, ctx), Enter(|w.chans|, |w.ctxs|, ctx'));
  }

  function NameTx(r: Names, w: World): Names {
    r.(txs := r.txs + [|w.txs|])
  }

  lemma BeginSame(r: Names, u: World, w: World, opts: TxOpts)
    requires SameWorld(r, u, w)
    ensures Extends(r, NameTx(r, w), w)
    ensures SameWorld(NameTx(r, w), Begin(u, opts), Begin(w, opts))
  {
    var r' := NameTx(r, w);
    SameTraceMore(r, r', w, u.trace, w.trace);
    var u1, w1 := u.(txs := u.txs + [Tx(Active, [])]), w.(txs := w.txs + [Tx(Active, [])]);
    assert SameWorld(r', u1, w1) by {
      hide SameTrace;
      forall i | 0 <= i < |r'.ctxs| ensures SameCtx(r', u1.ctxs[i], w1.ctxs[r'.ctxs[i]]) {
        assert SameCtx(r, u.ctxs[i], w.ctxs[r.ctxs[i]]);
      }
    }
    LogSame(r', u1, w1, BeginOk(|u.txs|, opts), BeginOk(|w.txs|, opts));
  }

  function NameDerived(r: Names, w: World): Names {
    r.(ctxs := r.ctxs + [|w.ctxs|])
  }

  lemma DeriveSame(r: Names, u: World, w: World, c: CtxId, c': CtxId)
    requires SameWorld(r, u, w) && Id(r.ctxs, c, c')
    ensures c < |u.ctxs| && c' < |w.ctxs|
    ensures Extends(r, NameDerived(r, w), w)
    ensures SameWorld(NameDerived(r, w), DeriveContext(u, c), DeriveContext(w, c'))
  {
    var r' := NameDerived(r, w);
    SameTraceMore(r, r', w, u.trace, w.trace);
    assert SameCtx(r, u.ctxs[c], w.ctxs[c']);
    var u1, w1 := u.(ctxs := u.ctxs + [NoTxContext(u.ctxs[c])]), w.(ctxs := w.ctxs + [NoTxContext(w.ctxs[c'])]);
    assert SameWorld(r', u1, w1) by {
      hide SameTrace;
      forall i | 0 <= i < |r'.ctxs| ensures r'.ctxs[i] < |w1.ctxs| && SameCtx(r', u1.ctxs[i], w1.ctxs[r'.ctxs[i]]) {
        if i < |r.ctxs| {
          assert SameCtx(r, u.ctxs[i], w.ctxs[r.ctxs[i]]);
        }
      }
    }
    LogSame(r', u1, w1, Derived(|u.ctxs|, c), Derived(|w.ctxs|, c'));
  }

  lemma SameLocalsMore(r: Names, r': Names, w: World, a: Locals, b: Locals)
    requires SameLocals(r, a, b) && Extends(r, r', w)
    ensures SameLocals(r', a, b)
  {
  }

  lemma BindCtxSame(r: Names, a: Locals, b: Locals, c: CtxId, c': CtxId)
    requires SameLocals(r, a, b) && Id(r.ctxs, c, c')
    ensures SameLocals(r, BindCtx(a, c), BindCtx(b, c'))
  {
  }

  lemma BindReturnSame(r: Names, a: Locals, b: Locals, x: CallResult, y: CallResult)
    requires SameLocals(r, a, b) && x.res == y.res && x.err == y.err
    ensures SameLocals(r, BindReturn(a, x), BindReturn(b, y))
  {
  }

  // ----- The simulation, step by step -----

  ghost predicate SameProgress(r: Names, a: Progress, b: Progress) {
    match a
    case Stops(o) => b == Stops(o)
    case GoesOn(l, next) => b.GoesOn? && SameLocals(r, l, b.locals) && b.next == next && OwnJob(next)
  }

  lemma ActSame(env: Env, r: Names, u: World, w: World, l: Locals, l': Locals, job: Job) returns (r': Names)
    requires SameWorld(r, u, w) && SameLocals(r, l, l') && OwnJob(job) && !job.Run?
    ensures WellFormed(u) && WellFormed(w) && Extends(r, r', w)
    ensures SameWorld(r', Act(env, u, l, job).0, Act(env, w, l', job).0)
    ensures SameProgress(r', Act(env, u, l, job).1, Act(env, w, l', job).1)
  {
    hide SameWorld, Grows;
    TimesAgree(r, u, w);
    r' := r;
    match job
    case Return(_, _) =>
    case Raise(_) =>
    case GetDB(ref, _) => GetDBSame(env, r, u, w, l, l', job);
    case DeriveNoTx(ref, _) =>
      if ref.index < |l.ctxs| {
        var c, c' := l.ctxs[ref.index], l'.ctxs[ref.index];
        assert Id(r.ctxs, c, c');
        DeriveSame(r, u, w, c, c');
        r' := NameDerived(r, w);
        SameLocalsMore(r, r', w, l, l');
        BindCtxSame(r', l, l', |u.ctxs|, |w.ctxs|);
      }
    case Write(ref, v, _) =>
      if ref.index < |l.dbs| {
        assert SameDB(r, l.dbs[ref.index], l'.dbs[ref.index]);
        WriteSame(env, r, u, w, l.dbs[ref.index], l'.dbs[ref.index], v);
      }
    case IfError(_, _, _) =>
    case Invoke(tag, _) => LogSame(r, u, w, Invoked(tag), Invoked(tag));
  }

  lemma GetDBSame(env: Env, r: Names, u: World, w: World, l: Locals, l': Locals, job: Job)
    requires SameWorld(r, u, w) && SameLocals(r, l, l') && OwnJob(job) && job.GetDB?
    ensures WellFormed(u) && WellFormed(w)
    ensures SameWorld(r, Act(env, u, l, job).0, Act(env, w, l', job).0)
    ensures SameProgress(r, Act(env, u, l, job).1, Act(env, w, l', job).1)
  {
    hide SameWorld, Grows;
    TimesAgree(r, u, w);
    var ref := job.ctx;
    if ref.index < |l.ctxs| {
      var c, c' := l.ctxs[ref.index], l'.ctxs[ref.index];
      assert Id(r.ctxs, c, c') && SameCtx(r, u.ctxs[c], w.ctxs[c']);
      var ctx, ctx' := u.ctxs[c], w.ctxs[c'];
      assert Id(r.chans, ctx.ch, ctx'.ch);
      if !u.chans[ctx.ch] {
        LogSame(r, u, w, Refused(c, ctx.ch), Refused(c', ctx'.ch));
      } else if ctx.db.Some? {
        LogSame(r, u, w, Got(c, ctx.ch, ctx.db.value), Got(c', ctx'.ch, ctx'.db.value));
      }
    }
  }

  lemma AttemptStepSame(env: Env, r: Names, u: World, w: World, l: Locals, l': Locals, call: Call, k: Kont, k': Kont)
    returns (r': Names)
    requires SameWorld(r, u, w) && SameLocals(r, l, l') && SameKont(r, k, k') && OwnJob(call.body) && OwnKont(k)
    ensures Extends(r, r', w)
    ensures Same(r', AttemptStep(env, u, l, call, k), AttemptStep(env, w, l', call, k'))
    ensures Own(AttemptStep(env, u, l, call, k))
  {
    hide SameWorld, SameLocals, OwnJob;
    TimesAgree(r, u, w);
    if call.NoTxCall? {
      r' := NoTxStepSame(env, r, u, w, l, l', call, k, k');
    } else if env.begin(Now(u)).None? {
      r' := BeginStepSame(env, r, u, w, l, l', call, k, k');
    } else {
      r' := r;
      var e := BeginErr(call.txOpts.(ctx := Some(OrBackground(call.txOpts.ctx))), env.begin(Now(u)).value);
      LogSame(r, u, w, e, e);
    }
  }

  lemma BeginStepSame(env: Env, r: Names, u: World, w: World, l: Locals, l': Locals, call: Call, k: Kont, k': Kont)
    returns (r': Names)
    requires SameWorld(r, u, w) && SameLocals(r, l, l') && SameKont(r, k, k') && OwnJob(call.body) && OwnKont(k)
    requires call.TxCall? && env.begin(Now(u)).None?
    ensures Extends(r, r', w)
    ensures Same(r', AttemptStep(env, u, l, call, k), AttemptStep(env, w, l', call, k'))
    ensures Own(AttemptStep(env, u, l, call, k))
  {
    hide SameWorld, SameLocals, OwnJob;
    TimesAgree(r, u, w);
    var raw := OrBackground(call.txOpts.ctx);
    var opts := call.txOpts.(ctx := Some(raw));
    var r1 := NameTx(r, w);
    BeginSame(r, u, w, opts);
    r' := NameChan(r1, Begin(w, opts));
    NewContextSame(r1, Begin(u, opts), Begin(w, opts), raw, Some(TxHandle(|u.txs|)), Some(TxHandle(|w.txs|)),
                   FallbackDB(env, raw, opts.ext, Now(u) + 1));
    SameLocalsMore(r, r', w, l, l');
    BindCtxSame(r', l, l', |u.ctxs|, |w.ctxs|);
    SameKontMore(r, r', w, k, k');
  }

  lemma NoTxStepSame(env: Env, r: Names, u: World, w: World, l: Locals, l': Locals, call: Call, k: Kont, k': Kont)
    returns (r': Names)
    requires SameWorld(r, u, w) && SameLocals(r, l, l') && SameKont(r, k, k') && OwnJob(call.body) && OwnKont(k)
    requires call.NoTxCall?
    ensures Extends(r, r', w)
    ensures Same(r', AttemptStep(env, u, l, call, k), AttemptStep(env, w, l', call, k'))
    ensures Own(AttemptStep(env, u, l, call, k))
  {
    hide SameWorld, SameLocals, OwnJob;
    TimesAgree(r, u, w);
    var raw := OrBackground(call.noTxOpts.ctx);
    var db := ProviderDB(env, call.noTxOpts.(ctx := Some(raw)), Now(u));
    r' := NameChan(r, w);
    NewContextSame(r, u, w, raw, db, db, None);
    SameLocalsMore(r, r', w, l, l');
    BindCtxSame(r', l, l', |u.ctxs|, |w.ctxs|);
    SameKontMore(r, r', w, k, k');
  }

  predicate CommitsNext(o: Outcome, k: Kont) {
    k.InTx? && o.Returned? && o.err.None?
  }

  lemma JobEndStepSame(env: Env, r: Names, u: World, w: World, o: Outcome, k: Kont, k': Kont)
    requires SameWorld(r, u, w) && SameKont(r, k, k') && OwnKont(k)
    ensures Same(r, JobEndStep(env, u, o, k), JobEndStep(env, w, o, k'))
    ensures Own(JobEndStep(env, u, o, k))
  {
    hide SameWorld, JobEndStep, SameLocals, OwnJob;
    if CommitsNext(o, k) {
      CommitStepSame(env, r, u, w, o, k, k');
    } else {
      NoCommitStep(env, r, u, w, o, k, k');
    }
  }

  /** A job's end that commits nothing changes nothing but the control. */
  lemma NoCommitStep(env: Env, r: Names, u: World, w: World, o: Outcome, k: Kont, k': Kont)
    requires SameWorld(r, u, w) && SameKont(r, k, k') && OwnKont(k) && !CommitsNext(o, k)
    ensures var s, t := JobEndStep(env, u, o, k), JobEndStep(env, w, o, k');
            && s == State(u, s.control, k) && t == State(w, s.control, k')
            && (s.control.JobEnded? || s.control.Deferring? || s.control.Closing?)
  {
    hide SameWorld, Commit, SameLocals, OwnJob, Id;
    FramesAgree(r, u, w, k, k');
  }

  lemma FramesAgree(r: Names, u: World, w: World, k: Kont, k': Kont)
    requires SameWorld(r, u, w) && SameKont(r, k, k')
    ensures k.InTx? == k'.InTx? && k.InNoTx? == k'.InNoTx?
    ensures k.InTx? ==> k.tx < |u.txs| && k'.tx < |w.txs| && Id(r.txs, k.tx, k'.tx)
  {
    hide SameTrace, SameCtx, SameLocals;
  }

  lemma CommitStepSame(env: Env, r: Names, u: World, w: World, o: Outcome, k: Kont, k': Kont)
    requires SameWorld(r, u, w) && SameKont(r, k, k') && OwnKont(k) && CommitsNext(o, k)
    ensures Same(r, JobEndStep(env, u, o, k), JobEndStep(env, w, o, k'))
    ensures Own(JobEndStep(env, u, o, k))
  {
    hide SameWorld, Commit, SameLocals, OwnJob, OwnKont, SameKont, Wrap;
    TimesAgree(r, u, w);
    FramesAgree(r, u, w, k, k');
    CommitSame(env, r, u, w, k.tx, k'.tx);
  }

  lemma EndStepSame(env: Env, r: Names, u: World, w: World, res: Res, err: Option<Error>, k: Kont, k': Kont)
    requires ValidEnv(env) && SameWorld(r, u, w) && SameKont(r, k, k') && OwnKont(k)
    ensures Same(r, EndStep(env, u, res, err, k), EndStep(env, w, res, err, k'))
    ensures Own(EndStep(env, u, res, err, k))
  {
    hide SameWorld, NeedRetry, SameLocals, OwnJob;
    TimesAgree(r, u, w);
    if k.Resume? {
      BindReturnSame(r, k.locals, k'.locals, CallResult(u, res, err), CallResult(w, res, err));
    } else if k.Round? {
      RoundStepSame(env, r, u, w, res, err, k, k');
    }
  }

  lemma RoundStepSame(env: Env, r: Names, u: World, w: World, res: Res, err: Option<Error>, k: Kont, k': Kont)
    requires ValidEnv(env) && SameWorld(r, u, w) && SameKont(r, k, k') && OwnKont(k) && k.Round?
    ensures Same(r, EndStep(env, u, res, err, k), EndStep(env, w, res, err, k'))
    ensures Own(EndStep(env, u, res, err, k))
  {
    hide SameWorld, NeedRetry, SameLocals, OwnJob, Retrier.CalcDelay;
    TimesAgree(r, u, w);
    if env.retrier.Some? && k.i < Budget(env) {
      var cut := ErrOf(env, CallCtx(k.call), Now(u));
      if cut.Some? {
        LogSame(r, u, w, WaitCut(cut.value), WaitCut(cut.value));
      } else {
        LogSame(r, u, w, Waited(Delay(env, u, k.i)), Waited(Delay(env, w, k.i)));
      }
    }
  }

  /** One step alone and the matching step among others keep the two states the same. */
  lemma MicroSame(env: Env, r: Names, s: State, t: State) returns (r': Names)
    requires ValidEnv(env) && Same(r, s, t) && Own(s)
    ensures WellFormed(s.w) && WellFormed(t.w)
    ensures Extends(r, r', t.w)
    ensures Same(r', Micro(env, s), Micro(env, t)) && Own(Micro(env, s))
  {
    hide SameWorld, SameLocals;
    TimesAgree(r, s.w, t.w);
    r' := r;
    match s.control
    case Executing(l, job) =>
      if !job.Run? {
        r' := ActSame(env, r, s.w, t.w, l, t.control.locals, job);
        SameKontMore(r, r', t.w, s.kont, t.kont);
      }
    case Calling(_, _) =>
    case Trying(_, _, _) =>
    case Attempting(l, call) =>
      r' := AttemptStepSame(env, r, s.w, t.w, l, t.control.locals, call, s.kont, t.kont);
    case JobEnded(o) => JobEndStepSame(env, r, s.w, t.w, o, s.kont, t.kont);
    case Deferring(_, err) =>
      if err.Some? && s.kont.InTx? {
        RollbackSame(env, r, s.w, t.w, s.kont.tx, t.kont.tx);
      }
    case Closing(_, _) =>
      if s.kont.InTx? || s.kont.InNoTx? {
        CloseSame(r, s.w, t.w, s.kont.ch, t.kont.ch);
      }
    case Ended(res, err) => EndStepSame(env, r, s.w, t.w, res, err, s.kont, t.kont);
  }

  // ----- What a thread leaves alone -----

  /** Only what goes by the names r, or is new, differs between w and w'. */
  ghost predicate TouchesOnly(r: Names, w: World, w': World) {
    && w.ctxs <= w'.ctxs && |w.chans| <= |w'.chans| && |w.txs| <= |w'.txs|
    && (forall c :: 0 <= c < |w.chans| && c !in r.chans ==> w'.chans[c] == w.chans[c])
    && (forall t :: 0 <= t < |w.txs| && t !in r.txs ==> w'.txs[t] == w.txs[t])
  }

  lemma ActTouches(env: Env, r: Names, u: World, w: World, l: Locals, l': Locals, job: Job)
    requires SameWorld(r, u, w) && SameLocals(r, l, l') && OwnJob(job) && !job.Run?
    ensures WellFormed(w) && TouchesOnly(r, w, Act(env, w, l', job).0)
  {
    hide Grows, SameTrace, SameCtx;
    if job.Write? && job.db.index < |l.dbs| {
      assert SameDB(r, l.dbs[job.db.index], l'.dbs[job.db.index]);
    }
  }

  lemma MicroTouches(env: Env, r: Names, s: State, t: State)
    requires ValidEnv(env) && Same(r, s, t) && Own(s)
    ensures WellFormed(t.w) && TouchesOnly(r, t.w, Micro(env, t).w)
  {
    hide SameTrace, SameCtx, SameLocals, Act, NeedRetry, Retrier.CalcDelay;
    if s.control.Executing? && !s.control.job.Run? {
      ActTouches(env, r, s.w, t.w, s.control.locals, t.control.locals, s.control.job);
    }
  }

  ghost predicate Disjoint(r: Names, q: Names) {
    (forall c :: c in r.chans ==> c !in q.chans) && (forall t :: t in r.txs ==> t !in q.txs)
  }

  /** A thread does not notice a step of another one. */
  lemma OthersUnaffected(r: Names, q: Names, u: World, w: World, w': World)
    requires SameWorld(q, u, w) && WellFormed(w') && Disjoint(q, r) && TouchesOnly(r, w, w')
    ensures SameWorld(q, u, w'.(trace := w.trace))
  {
    hide SameTrace, SameCtx;
    forall i | 0 <= i < |q.chans| ensures q.chans[i] < |w'.chans| && w'.chans[q.chans[i]] == u.chans[i] {
      assert q.chans[i] in q.chans;
    }
    forall i | 0 <= i < |q.txs| ensures q.txs[i] < |w'.txs| && w'.txs[q.txs[i]] == u.txs[i] {
      assert q.txs[i] in q.txs;
    }
  }

  /** New names are nobody else's. */
  lemma ExtendedDisjoint(r: Names, r': Names, q: Names, u: World, w: World)
    requires Disjoint(q, r) && Extends(r, r', w) && SameWorld(q, u, w)
    ensures Disjoint(q, r') && Disjoint(r', q)
  {
    hide SameTrace, SameCtx;
  }

  // ----- Whole schedules -----

  /** Every thread is where its solo run is, up to names, and no name is shared. */
  ghost predicate Simulated(m: System, solos: seq<State>, rs: seq<Names>) {
    && |solos| == |rs| == |m.threads|
    && (forall i :: 0 <= i < |rs| ==> Same(rs[i], solos[i], View(m, i)) && Own(solos[i]))
    && (forall i, j :: 0 <= i < |rs| && 0 <= j < |rs| && i != j ==> Disjoint(rs[i], rs[j]))
  }

  lemma StepSimulated(m: System, solos: seq<State>, rs: seq<Names>, i: nat) returns (rs': seq<Names>)
    requires ValidSystem(m) && Simulated(m, solos, rs) && i < |m.threads|
    ensures WellFormed(solos[i].w)
    ensures Simulated(StepThread(m, i), solos[i := Micro(m.threads[i].env, solos[i])], rs')
    ensures Extends(rs[i], rs'[i], m.shared) && rs' == rs[i := rs'[i]]
  {
    hide SameWorld, SameControl, SameKont, Own, Micro;
    var env := m.threads[i].env;
    assert Same(rs[i], solos[i], View(m, i));
    var r' := MicroSame(env, rs[i], solos[i], View(m, i));
    MicroTouches(env, rs[i], solos[i], View(m, i));
    rs' := rs[i := r'];
    var m', solos' := StepThread(m, i), solos[i := Micro(env, solos[i])];
    var w' := Micro(env, View(m, i)).w;
    MicroWellFormed(env, View(m, i));
    assert View(m', i) == Micro(env, View(m, i));
    forall j | 0 <= j < |rs| && j != i
      ensures Same(rs'[j], solos'[j], View(m', j)) && Disjoint(rs'[i], rs'[j]) && Disjoint(rs'[j], rs'[i])
    {
      assert Same(rs[j], solos[j], View(m, j)) && Disjoint(rs[j], rs[i]);
      OthersUnaffected(rs[i], rs[j], solos[j].w, View(m, j).w, w');
      assert View(m', j).w == w'.(trace := View(m, j).w.trace);
      ExtendedDisjoint(rs[i], r', rs[j], solos[j].w, View(m, j).w);
    }
  }

  /** Threads about to make their calls on an empty database. */
  function Start(envs: seq<Env>, calls: seq<Call>): (m: System)
    requires |envs| == |calls|
    ensures |m.threads| == |envs|
  {
    System(EMPTY_WORLD,
           seq(|envs|, i requires 0 <= i < |envs| => Thread(envs[i], [], Calling(NO_LOCALS, calls[i]), Finished)))
  }

  function Alone(env: Env, call: Call): State {
    State(EMPTY_WORLD, Calling(NO_LOCALS, call), Finished)
  }

  ghost predicate SoloStates(envs: seq<Env>, calls: seq<Call>, sched: seq<nat>, solos: seq<State>)
    requires |envs| == |calls| && forall i :: 0 <= i < |envs| ==> ValidEnv(envs[i])
  {
    && |solos| == |envs|
    && forall i :: 0 <= i < |envs| ==> solos[i] == Steps(envs[i], Alone(envs[i], calls[i]), Turns(sched, i))
  }

  lemma {:induction false} ScheduleKeepsEnvs(m: System, sched: seq<nat>, i: nat)
    requires ValidSystem(m) && ValidSchedule(sched, |m.threads|) && i < |m.threads|
    ensures RunSchedule(m, sched).threads[i].env == m.threads[i].env
  {
    hide Micro;
    if sched == [] {
    } else {
      ScheduleKeepsEnvs(m, sched[..|sched| - 1], i);
    }
  }

  lemma StartSimulated(envs: seq<Env>, calls: seq<Call>, solos: seq<State>, rs: seq<Names>)
    requires |envs| == |calls| == |solos| == |rs|
    requires forall i :: 0 <= i < |envs| ==> OwnJob(calls[i].body)
    requires forall i :: 0 <= i < |envs| ==> solos[i] == Alone(envs[i], calls[i]) && rs[i] == NO_NAMES
    ensures Simulated(Start(envs, calls), solos, rs)
  {
    hide OwnJob;
    var m := Start(envs, calls);
    forall i | 0 <= i < |rs| ensures Same(rs[i], solos[i], View(m, i)) && Own(solos[i]) {
      assert View(m, i) == solos[i];
    }
  }

  lemma {:induction false} ScheduleSimulated(envs: seq<Env>, calls: seq<Call>, sched: seq<nat>)
    returns (solos: seq<State>, rs: seq<Names>)
    requires |envs| == |calls|
    requires forall i :: 0 <= i < |envs| ==> ValidEnv(envs[i]) && OwnJob(calls[i].body)
    requires ValidSchedule(sched, |envs|)
    ensures SoloStates(envs, calls, sched, solos)
    ensures Simulated(RunSchedule(Start(envs, calls), sched), solos, rs)
  {
    hide Micro, OwnJob, Simulated, StepThread;
    var m := Start(envs, calls);
    if sched == [] {
      solos := seq(|envs|, i requires 0 <= i < |envs| => Alone(envs[i], calls[i]));
      rs := seq(|envs|, i => NO_NAMES);
      StartSimulated(envs, calls, solos, rs);
    } else {
      var before, i := sched[..|sched| - 1], sched[|sched| - 1];
      var solos0, rs0 := ScheduleSimulated(envs, calls, before);
      var m0 := RunSchedule(m, before);
      rs := StepSimulated(m0, solos0, rs0, i);
      ScheduleKeepsEnvs(m, before, i);
      solos := solos0[i := Micro(envs[i], solos0[i])];
    }
  }

  /** Non-interference: after any schedule, each of any number of threads is, up to the numbering of what it made,
      in the very state it is in after as many steps alone, its record of events included. */
  lemma NonInterference(envs: seq<Env>, calls: seq<Call>, sched: seq<nat>, i: nat)
    requires |envs| == |calls|
    requires forall j :: 0 <= j < |envs| ==> ValidEnv(envs[j]) && OwnJob(calls[j].body)
    requires ValidSchedule(sched, |envs|) && i < |envs|
    ensures exists r ::
              Same(r, Steps(envs[i], Alone(envs[i], calls[i]), Turns(sched, i)),
                   View(RunSchedule(Start(envs, calls), sched), i))
  {
    hide Same, Steps, Turns, OwnJob, Own, RunSchedule;
    var solos, rs := ScheduleSimulated(envs, calls, sched);
    assert Same(rs[i], solos[i], View(RunSchedule(Start(envs, calls), sched), i));
  }

  /** In particular a thread that has finished returns what its call returns when it runs alone, after the same
      events, and with its transactions and channels in the same states. */
  lemma InterleavedOutcome(envs: seq<Env>, calls: seq<Call>, sched: seq<nat>, i: nat)
    requires |envs| == |calls|
    requires forall j :: 0 <= j < |envs| ==> ValidEnv(envs[j]) && OwnJob(calls[j].body)
    requires ValidSchedule(sched, |envs|) && i < |envs|
    ensures var s := View(RunSchedule(Start(envs, calls), sched), i);
            var r := RunCall(envs[i], EMPTY_WORLD, NO_LOCALS, calls[i]);
            s.control.Ended? && s.kont.Finished? ==>
              && s.control == Ended(r.res, r.err)
              && exists names :: SameWorld(names, r.w, s.w)
  {
    hide RunCall, Steps, Turns, OwnJob, RunSchedule, SameLocals, SameEvent;
    NonInterference(envs, calls, sched, i);
    FinishesAsInterpreted(envs[i], calls[i], Turns(sched, i));
  }
}
