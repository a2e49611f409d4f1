/** What the code promises its users: writes through a run's own handle become durable together, in order, if the run
    commits, and not at all otherwise; writes through a derived context stay whatever becomes of the run. */
module Durability {
  import opened Options
  import opened Errors
  import opened World
  import opened Interpreter
  import opened Outcomes
  import Results

  /** Writes the values through handle h, then goes on. */
  function WriteAll(h: nat, vs: seq<int>, end: Job): Job {
    if vs == [] then end else Write(Own(h), vs[0], WriteAll(h, vs[1..], end))
  }

  function WroteAll(db: DB, vs: seq<int>): seq<Event> {
    seq(|vs|, i requires 0 <= i < |vs| => Wrote(db, vs[i]))
  }

  function PoolEntries(id: nat, vs: seq<int>): seq<(nat, int)> {
    seq(|vs|, i requires 0 <= i < |vs| => (id, vs[i]))
  }

  /** The world after those writes. */
  function Written(w: World, db: DB, vs: seq<int>): World
    requires db.TxHandle? ==> db.tx < |w.txs|
  {
    var w' := w.(trace := w.trace + WroteAll(db, vs));
    match db
    case Pool(id) => w'.(pools := w.pools + PoolEntries(id, vs))
    case TxHandle(t) => w'.(txs := w.txs[t := w.txs[t].(buffer := w.txs[t].buffer + vs)])
  }

  function NoErrors(l: Locals, n: nat): Locals {
    l.(errs := l.errs + seq(n, i => None))
  }

  /** The handle works: it is a pool's, or that of an active transaction. */
  predicate Usable(w: World, db: DB) {
    db.TxHandle? ==> db.tx < |w.txs| && w.txs[db.tx].status == Active
  }

  ghost predicate WritesSucceed(env: Env) {
    forall n :: env.write(n).None?
  }

  lemma {:induction false} AllWritten(env: Env, w: World, l: Locals, h: nat, db: DB, vs: seq<int>, end: Job)
    requires ValidEnv(env) && WellFormed(w) && WritesSucceed(env)
    requires h < |l.dbs| && l.dbs[h] == db && Usable(w, db)
    ensures WellFormed(Written(w, db, vs))
    ensures Exec(env, w, l, WriteAll(h, vs, end)) == Exec(env, Written(w, db, vs), NoErrors(l, |vs|), end)
    decreases |vs|
  {
    hide Grows, Exec, Act;
    if vs == [] {
      NothingWritten(w, db, l);
    } else {
      var w1, l1 := Written(w, db, [vs[0]]), NoErrors(l, 1);
      OneWritten(env, w, l, h, db, vs[0], WriteAll(h, vs[1..], end));
      GoOn(env, w, l, WriteAll(h, vs, end), w1, l1, WriteAll(h, vs[1..], end));
      AllWritten(env, w1, l1, h, db, vs[1..], end);
      WrittenInOrder(w, db, vs, l);
    }
  }

  lemma NothingWritten(w: World, db: DB, l: Locals)
    requires db.TxHandle? ==> db.tx < |w.txs|
    ensures Written(w, db, []) == w && NoErrors(l, 0) == l
  {
    assert w.trace + WroteAll(db, []) == w.trace;
    match db
    case Pool(id) => assert w.pools + PoolEntries(id, []) == w.pools;
    case TxHandle(t) => assert w.txs[t].buffer + [] == w.txs[t].buffer;
  }

  lemma OneWritten(env: Env, w: World, l: Locals, h: nat, db: DB, v: int, next: Job)
    requires ValidEnv(env) && WellFormed(w) && WritesSucceed(env)
    requires h < |l.dbs| && l.dbs[h] == db && Usable(w, db)
    ensures WellFormed(Written(w, db, [v]))
    ensures Act(env, w, l, Write(Own(h), v, next)) == (Written(w, db, [v]), GoesOn(NoErrors(l, 1), next))
  {
    hide Grows;
    assert env.write(Now(w)).None?;
    assert WroteAll(db, [v]) == [Wrote(db, v)];
    assert db.Pool? ==> PoolEntries(db.id, [v]) == [(db.id, v)];
    assert NoErrors(l, 1).errs == l.errs + [None];
  }

  lemma WrittenInOrder(w: World, db: DB, vs: seq<int>, l: Locals)
    requires vs != [] && (db.TxHandle? ==> db.tx < |w.txs|)
    ensures Written(Written(w, db, [vs[0]]), db, vs[1..]) == Written(w, db, vs)
    ensures NoErrors(NoErrors(l, 1), |vs| - 1) == NoErrors(l, |vs|)
  {
    assert (w.trace + WroteAll(db, [vs[0]])) + WroteAll(db, vs[1..]) == w.trace + WroteAll(db, vs);
    match db
    case Pool(id) =>
      assert (w.pools + PoolEntries(id, [vs[0]])) + PoolEntries(id, vs[1..]) == w.pools + PoolEntries(id, vs);
    case TxHandle(t) => assert (w.txs[t].buffer + [vs[0]]) + vs[1..] == w.txs[t].buffer + vs;
  }

  /** A job that gets the DB of its context and writes through it. */
  function Writer(l: Locals, vs: seq<int>, out: seq<Results.Value>, err: ErrExpr): Job {
    GetDB(Own(|l.ctxs|), WriteAll(|l.dbs|, vs, Return(NewResult(out), err)))
  }

  /** The same through a context derived from it. */
  function Bypasser(l: Locals, vs: seq<int>, out: seq<Results.Value>, err: ErrExpr): Job {
    DeriveNoTx(Own(|l.ctxs|), GetDB(Own(|l.ctxs| + 1), WriteAll(|l.dbs|, vs, Return(NewResult(out), err))))
  }

  lemma GetsHandle(env: Env, w: World, l: Locals, next: Job)
    requires WellFormed(w)
    requires |w.ctxs| > 0 && var c := w.ctxs[|w.ctxs| - 1]; w.chans[c.ch] && c.db.Some?
    ensures var c := |w.ctxs| - 1;
            var db := w.ctxs[c].db.value;
            Act(env, w, l.(ctxs := l.ctxs + [c]), GetDB(Own(|l.ctxs|), next))
            == (Log(w, Got(c, w.ctxs[c].ch, db)), GoesOn(Locals(l.ctxs + [c], l.dbs + [db], l.errs, l.results), next))
  {
    hide Grows;
  }

  lemma WriterWrites(env: Env, w: World, l: Locals, vs: seq<int>, out: seq<Results.Value>, err: ErrExpr)
    requires ValidEnv(env) && WellFormed(w) && WritesSucceed(env)
    requires |w.ctxs| > 0 && var c := w.ctxs[|w.ctxs| - 1]; w.chans[c.ch] && c.db.Some? && Usable(w, c.db.value)
    ensures var c := |w.ctxs| - 1;
            var db := w.ctxs[c].db.value;
            var (w', o) := Exec(env, w, l.(ctxs := l.ctxs + [c]), Writer(l, vs, out, err));
            && w' == Written(w.(trace := w.trace + [Got(c, w.ctxs[c].ch, db)]), db, vs)
            && (err.NilError? ==> o == Returned(Some(Results.Result(out)), None))
            && (err.NewError? ==> o == Returned(Some(Results.Result(out)), Some(err.err)))
  {
    hide Grows, Exec, WriteAll, Written, Act;
    var c := |w.ctxs| - 1;
    var db := w.ctxs[c].db.value;
    var l0 := l.(ctxs := l.ctxs + [c]);
    var w1, l1 := Log(w, Got(c, w.ctxs[c].ch, db)), l0.(dbs := l.dbs + [db]);
    GetsHandle(env, w, l, WriteAll(|l.dbs|, vs, Return(NewResult(out), err)));
    GoOn(env, w, l0, Writer(l, vs, out, err), w1, l1, WriteAll(|l.dbs|, vs, Return(NewResult(out), err)));
    AllWritten(env, w1, l1, |l.dbs|, db, vs, Return(NewResult(out), err));
    Ends(env, Written(w1, db, vs), NoErrors(l1, |vs|), out, err);
  }

  lemma GoOn(env: Env, w: World, l: Locals, job: Job, w1: World, l1: Locals, next: Job)
    requires ValidEnv(env) && WellFormed(w) && !job.Run? && Act(env, w, l, job) == (w1, GoesOn(l1, next))
    ensures WellFormed(w1) && Exec(env, w, l, job) == Exec(env, w1, l1, next)
  {
    hide Act, Grows;
  }

  lemma Ends(env: Env, w: World, l: Locals, out: seq<Results.Value>, err: ErrExpr)
    requires ValidEnv(env) && WellFormed(w)
    ensures Exec(env, w, l, Return(NewResult(out), err)) == (w, Returned(Some(Results.Result(out)), EvalErr(l, err)))
  {
  }

  lemma BypasserWrites(env: Env, w: World, l: Locals, vs: seq<int>, out: seq<Results.Value>, err: ErrExpr)
    requires ValidEnv(env) && WellFormed(w) && WritesSucceed(env)
    requires |w.ctxs| > 0
    requires var c := w.ctxs[|w.ctxs| - 1]; w.chans[c.ch] && c.fallbackDB.Some? && c.fallbackDB.value.Pool?
    ensures var c := |w.ctxs| - 1;
            var db := w.ctxs[c].fallbackDB.value;
            var (w', o) := Exec(env, w, l.(ctxs := l.ctxs + [c]), Bypasser(l, vs, out, err));
            && w'.primary == w.primary && w'.txs == w.txs && w'.pools == w.pools + PoolEntries(db.id, vs)
            && (err.NilError? ==> o == Returned(Some(Results.Result(out)), None))
            && (err.NewError? ==> o == Returned(Some(Results.Result(out)), Some(err.err)))
  {
    hide WriteAll, Exec, Grows;
    var c := |w.ctxs| - 1;
    var l0, w1 := l.(ctxs := l.ctxs + [c]), DeriveContext(w, c);
    var l1 := l0.(ctxs := l0.ctxs + [|w.ctxs|]);
    GoOn(env, w, l0, Bypasser(l, vs, out, err), w1, l1, Writer(l0, vs, out, err));
    WriterWrites(env, w1, l0, vs, out, err);
  }

  lemma WriterJob(env: Env, w: World, l: Locals, o: TxOpts, vs: seq<int>, out: seq<Results.Value>, err: ErrExpr)
    requires ValidEnv(env) && WellFormed(w) && WritesSucceed(env) && (err.NilError? || err.NewError?)
    ensures var (w2, o2) := Exec(env, TxStart(env, w, o), StartLocals(l, w), Writer(l, vs, out, err));
            && w2.primary == w.primary && w2.pools == w.pools && |w2.trace| == |w.trace| + 3 + |vs|
            && |w2.txs| == |w.txs| + 1 && w2.txs[|w.txs|].buffer == vs
            && o2 == Returned(Some(Results.Result(out)), if err.NilError? then None else Some(err.err))
  {
    hide Exec, Grows, Writer;
    WriterWrites(env, TxStart(env, w, o), l, vs, out, err);
  }

  /** All writes of a run, in order, and its job's result, if the job returns nil and the commit succeeds; otherwise
      none, and an error without result. */
  lemma WritesAreDurableTogether(env: Env, w: World, l: Locals, o: TxOpts,
                                 vs: seq<int>, out: seq<Results.Value>, err: ErrExpr)
    requires ValidEnv(env) && WellFormed(w) && WritesSucceed(env) && env.begin(|w.trace|).None?
    requires err.NilError? || err.NewError?
    ensures var r := RunTx(env, w, l, TxCall(o, Writer(l, vs, out, err)));
            var committed := err.NilError? && env.commit(|w.trace| + 3 + |vs|).CommitDone?;
            && r.w.pools == w.pools
            && r.w.primary == w.primary + (if committed then Tagged(|w.txs|, vs) else [])
            && (r.err.None? <==> committed)
            && r.res == (if committed then Some(Results.Result(out)) else None)
  {
    hide Exec, Grows, Writer, RunTx, TxStart;
    WriterJob(env, w, l, o, vs, out, err);
    TxRunOutcome(env, w, l, o, Writer(l, vs, out, err));
  }

  /** Writes through a derived context, where the provider has a DB for it, stay in its log in any case. */
  lemma WritesAroundStay(env: Env, w: World, l: Locals, o: TxOpts,
                         vs: seq<int>, out: seq<Results.Value>, err: ErrExpr, id: nat)
    requires ValidEnv(env) && WellFormed(w) && WritesSucceed(env) && env.begin(|w.trace|).None?
    requires err.NilError? || err.NewError?
    requires Some(id) == if env.dynamicFallbackDB then env.pool(NoTxOpts(SentOpts(o).ctx, o.ext), |w.trace| + 1)
                         else env.pool(NoTxOpts(None, None), 0)
    ensures var r := RunTx(env, w, l, TxCall(o, Bypasser(l, vs, out, err)));
            r.w.pools == w.pools + PoolEntries(id, vs) && r.w.primary == w.primary
  {
    hide Exec, Grows, WriteAll, RunTx;
    var w1 := TxStart(env, w, o);
    BypasserWrites(env, w1, l, vs, out, err);
    TxRunOutcome(env, w, l, o, Bypasser(l, vs, out, err));
  }

  /** So do those of a run without transaction. */
  lemma WritesWithoutTransactionStay(env: Env, w: World, l: Locals, o: NoTxOpts,
                                     vs: seq<int>, out: seq<Results.Value>, err: ErrExpr, id: nat)
    requires ValidEnv(env) && WellFormed(w) && WritesSucceed(env)
    requires err.NilError? || err.NewError?
    requires env.pool(NoTxOpts(Some(FilledIn(o.ctx)), o.ext), |w.trace|) == Some(id)
    ensures var r := RunNoTx(env, w, l, NoTxCall(o, Writer(l, vs, out, err)));
            r.w.pools == w.pools + PoolEntries(id, vs) && r.w.primary == w.primary && r.w.txs == w.txs
  {
    hide Exec, Grows, WriteAll, RunNoTx;
    var w1 := NoTxStart(env, w, o);
    WriterWrites(env, w1, l, vs, out, err);
    NoTxRunOutcome(env, w, l, o, Writer(l, vs, out, err));
  }

  /** A job sees what the run nested in it returned: it can act on it or swallow it, ... */
  lemma JobSeesNestedError(env: Env, w: World, l: Locals, call: Call, failed: Job, passed: Job)
    requires ValidEnv(env) && WellFormed(w)
    ensures var c := RunCall(env, w, l, call);
            var l1 := Locals(l.ctxs, l.dbs, l.errs + [c.err], l.results + [c.res]);
            Exec(env, w, l, Run(call, IfError(|l.errs|, failed, passed)))
            == Exec(env, c.w, l1, if c.err.Some? then failed else passed)
  {
    hide RunCall, Grows;
    var c := RunCall(env, w, l, call);
    var l1 := BindReturn(l, c);
    GoOn(env, c.w, l1, IfError(|l.errs|, failed, passed), c.w, l1, if c.err.Some? then failed else passed);
  }

  /** ... as it sees and can act on a write that failed, which leaves nothing but its event, ... */
  lemma JobSeesFailedWrite(env: Env, w: World, l: Locals, h: nat, v: int, failed: Job, passed: Job)
    requires ValidEnv(env) && WellFormed(w) && h < |l.dbs|
    requires env.write(|w.trace|).Some? || !Usable(w, l.dbs[h])
    ensures exists e ::
              && (env.write(|w.trace|).Some? ==> e == env.write(|w.trace|).value)
              && Exec(env, w, l, Write(Own(h), v, IfError(|l.errs|, failed, passed)))
                 == Exec(env, w.(trace := w.trace + [WriteErr(l.dbs[h], e)]), l.(errs := l.errs + [Some(e)]), failed)
  {
    hide Grows, Exec;
    var db := l.dbs[h];
    var e := ProviderWrite(env, w, db, v).1.value;
    var w1, l1 := Log(w, WriteErr(db, e)), l.(errs := l.errs + [Some(e)]);
    GoOn(env, w, l, Write(Own(h), v, IfError(|l.errs|, failed, passed)), w1, l1, IfError(|l.errs|, failed, passed));
    GoOn(env, w1, l1, IfError(|l.errs|, failed, passed), w1, l1, failed);
  }

  /** ... or hand it up, as it is or wrapped, together with the result. */
  lemma JobHandsUp(env: Env, w: World, l: Locals, call: Call, text: string)
    requires ValidEnv(env) && WellFormed(w)
    ensures var c, i, j := RunCall(env, w, l, call), |l.results|, |l.errs|;
            && Exec(env, w, l, Run(call, Return(ResVar(i), ErrVar(j)))) == (c.w, Returned(c.res, c.err))
            && Exec(env, w, l, Run(call, Return(ResVar(i), WrappedVar(text, j))))
               == (c.w, Returned(c.res, if c.err.None? then None else Some(Error(Custom(text), [c.err.value]))))
  {
    hide RunCall, Grows;
    var c := RunCall(env, w, l, call);
    assert BindReturn(l, c).errs[|l.errs|] == c.err && BindReturn(l, c).results[|l.results|] == c.res;
  }
}
