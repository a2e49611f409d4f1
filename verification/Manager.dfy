/** The manager as objects: contexts sharing a close channel, a provider with state, runs that change both. Each
    method is proved to do to the world what the interpreter's function of the same name does. */
module Manager {
  import opened Options
  import opened Errors
  import opened World
  import Interpreter
  import Retrier

  // ----- Contexts -----

  class Channel {
    const id: ChanId
    var isOpen: bool

    constructor (id: ChanId)
      ensures this.id == id && isOpen
    {
      this.id := id;
      isOpen := true;
    }

    /** Closing a closed channel panics in Go: no caller may let that happen. */
    method Close()
      requires isOpen
      modifies this
      ensures !isOpen
    {
      isOpen := false;
    }
  }

  datatype Yield = Yields(db: Option<DB>) | Refuses(value: PanicValue)

  class CommonContext {
    const raw: RawCtx
    const db: Option<DB>
    const closeCh: Channel

    /** On a channel of its own, which is numbered for the record. */
    constructor (raw: RawCtx, db: Option<DB>, id: ChanId)
      ensures this.raw == raw && this.db == db
      ensures fresh(closeCh) && closeCh.isOpen && closeCh.id == id
    {
      this.raw := raw;
      this.db := db;
      this.closeCh := new Channel(id);
    }

    constructor Sharing(raw: RawCtx, db: Option<DB>, closeCh: Channel)
      ensures this.raw == raw && this.db == db && this.closeCh == closeCh
    {
      this.raw := raw;
      this.db := db;
      this.closeCh := closeCh;
    }

    method WithDB(db: Option<DB>) returns (c: CommonContext)
      ensures fresh(c) && c.raw == raw && c.db == db && c.closeCh == closeCh
    {
      c := new CommonContext.Sharing(raw, db, closeCh);
    }

    method GetDB() returns (r: Yield)
      ensures r.Yields? <==> closeCh.isOpen
      ensures r == if closeCh.isOpen then Yields(db) else Refuses(PanicError(INVALID_CONTEXT))
    {
      if !closeCh.isOpen {
        return Refuses(PanicError(INVALID_CONTEXT));
      }
      return Yields(db);
    }

    method Close()
      requires closeCh.isOpen
      modifies closeCh
      ensures !closeCh.isOpen
    {
      closeCh.Close();
    }
  }

  class ContextImpl {
    const common: CommonContext
    const fallbackDB: Option<DB>

    constructor NewTx(raw: RawCtx, primaryDB: Option<DB>, fallbackDB: Option<DB>, id: ChanId)
      ensures common.raw == raw && common.db == primaryDB && this.fallbackDB == fallbackDB
      ensures fresh(common) && fresh(common.closeCh) && common.closeCh.isOpen && common.closeCh.id == id
    {
      this.common := new CommonContext(raw, primaryDB, id);
      this.fallbackDB := fallbackDB;
    }

    constructor NewNoTx(raw: RawCtx, primaryDB: Option<DB>, id: ChanId)
      ensures common.raw == raw && common.db == primaryDB && fallbackDB == None
      ensures fresh(common) && fresh(common.closeCh) && common.closeCh.isOpen && common.closeCh.id == id
    {
      this.common := new CommonContext(raw, primaryDB, id);
      this.fallbackDB := None;
    }

    constructor Of(common: CommonContext, fallbackDB: Option<DB>)
      ensures this.common == common && this.fallbackDB == fallbackDB
    {
      this.common := common;
      this.fallbackDB := fallbackDB;
    }

    method NoTxContext() returns (c: ContextImpl)
      ensures fresh(c)
      ensures c.common.raw == common.raw && c.common.closeCh == common.closeCh
      ensures c.common.db == fallbackDB && c.fallbackDB == fallbackDB
    {
      var shared := common.WithDB(fallbackDB);
      c := new ContextImpl.Of(shared, fallbackDB);
    }
  }

  // ----- The provider -----

  /** The database behind the manager: it answers as the environment says and keeps the record of events. */
  class Provider {
    const env: Env
    var trace: seq<Event>
    var txs: seq<Tx>
    var primary: seq<(TxId, int)>
    var pools: seq<(nat, int)>

    constructor (env: Env)
      ensures this.env == env && trace == [] && txs == [] && primary == [] && pools == []
    {
      this.env := env;
      trace, txs, primary, pools := [], [], [], [];
    }

    ghost predicate Shows(w: World)
      reads this
    {
      trace == w.trace && txs == w.txs && primary == w.primary && pools == w.pools
    }

    method Record(e: Event)
      modifies this`trace
      ensures trace == old(trace) + [e]
    {
      trace := trace + [e];
    }

    method BeginTx(opts: TxOpts, ghost w: World) returns (t: TxId, err: Option<Error>)
      requires Shows(w)
      modifies this
      ensures err == env.begin(Interpreter.Now(w))
      ensures err.None? ==> t == |w.txs| && Shows(Interpreter.Begin(w, opts))
      ensures err.Some? ==> Shows(Interpreter.Log(w, BeginErr(opts, err.value)))
    {
      t := |txs|;
      err := env.begin(|trace|);
      if err.Some? {
        Record(BeginErr(opts, err.value));
      } else {
        txs := txs + [Tx(Active, [])];
        Record(BeginOk(t, opts));
      }
    }

    method Commit(t: TxId, ghost w: World) returns (answer: CommitAnswer)
      requires Shows(w) && t < |w.txs|
      modifies this
      ensures answer == env.commit(Interpreter.Now(w))
      ensures Shows(Interpreter.Commit(env, w, t))
    {
      answer := env.commit(|trace|);
      match answer
      case CommitDone =>
        primary := primary + Interpreter.Tagged(t, txs[t].buffer);
        txs := txs[t := txs[t].(status := Committed)];
        Record(CommitOk(t));
      case CommitFails(e) =>
        txs := txs[t := txs[t].(status := CommitFailed)];
        Record(CommitErr(t, e));
      case CommitPanics(v) =>
        txs := txs[t := txs[t].(status := CommitFailed)];
        Record(CommitPanic(t, v));
    }

    method Rollback(t: TxId, ghost w: World) returns (err: Option<Error>)
      requires Shows(w) && t < |w.txs|
      modifies this
      ensures err == env.rollback(Interpreter.Now(w))
      ensures Shows(Interpreter.Rollback(env, w, t))
    {
      err := env.rollback(|trace|);
      txs := txs[t := txs[t].(status := Discarded)];
      Record(RolledBack(t, err));
    }

    method Write(db: DB, v: int, ghost w: World) returns (err: Option<Error>)
      requires Shows(w)
      modifies this
      ensures err == Interpreter.ProviderWrite(env, w, db, v).1
      ensures Shows(Interpreter.ProviderWrite(env, w, db, v).0)
    {
      err := env.write(|trace|);
      if err.None? {
        match db
        case Pool(id) => pools := pools + [(id, v)];
        case TxHandle(t) =>
          if t < |txs| && txs[t].status == Active {
            txs := txs[t := txs[t].(buffer := txs[t].buffer + [v])];
          } else {
            err := Some(Error(Custom("tx is closed"), []));
          }
      }
      Record(if err.None? then Wrote(db, v) else WriteErr(db, err.value));
    }
  }

  // ----- The closure the retrier calls -----

  /** The function passed to the retrier, with the result and error variables it captures. */
  class Closure {
    const m: TxManager
    const l: Locals
    const call: Call
    var res: Res
    var err: Option<Error>

    constructor (m: TxManager, l: Locals, call: Call)
      ensures this.m == m && this.l == l && this.call == call && res == None && err == None
    {
      this.m := m;
      this.l := l;
      this.call := call;
      res, err := None, None;
    }

    method Invoke() returns (e: Option<Error>)
      requires m.Valid() && this !in m.Repr()
      modifies this, m.Repr()
      ensures m.Valid() && fresh(m.Repr() - old(m.Repr())) && this !in m.Repr()
      ensures m.Extends(old(m.chans))
      ensures Interpreter.CallResult(m.world, res, err) == Interpreter.Attempt(m.env, old(m.world), l, call)
      ensures e == err
      decreases call, 1
    {
      if call.TxCall? {
        res, err := m.RunTx(l, call);
      } else {
        res, err := m.RunNoTx(l, call);
      }
      if err.Some? {
        return err;
      }
      return None;
    }
  }

  // ----- The manager -----

  class TxManager {
    const env: Env
    const provider: Provider
    const defaultFallbackDB: Option<DB>
    /** The contexts the program has got hold of, in order. */
    var ctxs: seq<ContextImpl>
    /** Every close channel ever made, by number. */
    var chans: seq<Channel>
    ghost var world: World

    ghost function Repr(): set<object>
      reads this
    {
      {this, provider} + set c | c in chans
    }

    ghost predicate Extends(before: seq<Channel>)
      reads this
    {
      before <= chans
    }

    ghost predicate ShowsContext(c: ContextImpl, ctx: Ctx)
      reads this
    {
      && ctx.ch < |chans| && c.common.closeCh == chans[ctx.ch] && c.common.closeCh.id == ctx.ch
      && ctx == Ctx(c.common.raw, c.common.db, c.fallbackDB, ctx.ch)
    }

    ghost predicate Valid()
      reads Repr()
    {
      && ValidEnv(env) && WellFormed(world)
      && provider.env == env && provider.Shows(world)
      && defaultFallbackDB == DefaultDB(env)
      && |ctxs| == |world.ctxs|
      && (forall i :: 0 <= i < |ctxs| ==> ShowsContext(ctxs[i], world.ctxs[i]))
      && |chans| == |world.chans|
      && (forall i :: 0 <= i < |chans| ==> chans[i].id == i && chans[i].isOpen == world.chans[i])
    }

    constructor (env: Env)
      ensures this.env == env && world == EMPTY_WORLD && fresh(Repr())
      ensures Valid() <==> ValidEnv(env)
    {
      this.env := env;
      this.provider := new Provider(env);
      this.defaultFallbackDB := ProviderDB(env, NoTxOpts(None, None), 0);
      this.ctxs := [];
      this.chans := [];
      this.world := EMPTY_WORLD;
    }

    method Record(e: Event)
      requires Valid()
      modifies this`world, provider`trace
      ensures Valid() && world == Interpreter.Log(old(world), e)
    {
      provider.Record(e);
      world := Interpreter.Log(world, e);
    }

    // ----- A job's statements -----

    method PickCtx(l: Locals, r: Ref) returns (c: Option<CtxId>)
      requires Valid()
      ensures c == Interpreter.CtxOf(env, world, l, r)
    {
      var i := if r.Foreign? then env.input(|provider.trace|)
               else if r.index < |l.ctxs| then l.ctxs[r.index] else |ctxs|;
      c := if i < |ctxs| then Some(i) else None;
    }

    method PickHandle(l: Locals, r: Ref) returns (db: Option<DB>)
      requires Valid()
      ensures db == Interpreter.HandleOf(env, world, l, r)
    {
      db := if r.Foreign? then Some(env.handle(|provider.trace|))
            else if r.index < |l.dbs| then Some(l.dbs[r.index]) else None;
    }

    /** `GetDB`: the DB of a live context and its caller's context, or a panic. */
    method GetDB(c: CtxId) returns (r: Yield, raw: RawCtx)
      requires Valid() && c < |ctxs|
      modifies this`world, provider`trace
      ensures Valid()
      ensures var w := old(world);
              var ctx := w.ctxs[c];
              && raw == ctx.raw
              && if !w.chans[ctx.ch] then
                   r == Refuses(PanicError(INVALID_CONTEXT)) && world == Interpreter.Log(w, Refused(c, ctx.ch))
                 else if ctx.db.None? then r == Refuses(Interpreter.BAD_CAST) && world == w
                 else r == Yields(ctx.db) && world == Interpreter.Log(w, Got(c, ctx.ch, ctx.db.value))
    {
      assert ShowsContext(ctxs[c], world.ctxs[c]);
      var common := ctxs[c].common;
      raw := common.raw;
      r := common.GetDB();
      match r
      case Refuses(_) => Record(Refused(c, common.closeCh.id));
      case Yields(None) => r := Refuses(Interpreter.BAD_CAST);
      case Yields(Some(db)) => Record(Got(c, common.closeCh.id, db));
    }

    method DeriveNoTx(c: CtxId)
      requires Valid() && c < |ctxs|
      modifies this, provider
      ensures Valid() && chans == old(chans)
      ensures world == Interpreter.DeriveContext(old(world), c)
    {
      assert ShowsContext(ctxs[c], world.ctxs[c]);
      var derived := ctxs[c].NoTxContext();
      provider.Record(Derived(|ctxs|, c));
      ctxs := ctxs + [derived];
      world := Interpreter.DeriveContext(world, c);
    }

    method Write(db: DB, v: int) returns (err: Option<Error>)
      requires Valid()
      modifies this`world, provider
      ensures Valid()
      ensures (world, err) == Interpreter.ProviderWrite(env, old(world), db, v)
    {
      err := provider.Write(db, v, world);
      world := Interpreter.ProviderWrite(env, world, db, v).0;
    }

    /** One statement, other than a nested run. */
    method Act(locals: Locals, job: Job) returns (p: Interpreter.Progress)
      requires Valid() && !job.Run?
      modifies this, provider
      ensures Valid() && chans == old(chans)
      ensures (world, p) == Interpreter.Act(env, old(world), locals, job)
      ensures p.GoesOn? ==> (job decreases to p.next)
    {
      hide Grows;
      match job
      case Return(res, err) =>
        p := Interpreter.Stops(Returned(Interpreter.EvalRes(locals, res), Interpreter.EvalErr(locals, err)));
      case Raise(v) =>
        p := Interpreter.Stops(Panicked(v));
      case GetDB(ref, next) =>
        var c := PickCtx(locals, ref);
        if c.None? {
          return Interpreter.Stops(Panicked(Interpreter.NIL_DEREFERENCE));
        }
        var y, raw := GetDB(c.value);
        match y {
          case Refuses(v) => p := Interpreter.Stops(Panicked(v));
          case Yields(db) => p := Interpreter.GoesOn(locals.(dbs := locals.dbs + [db.value]), next);
        }
      case DeriveNoTx(ref, next) =>
        var c := PickCtx(locals, ref);
        if c.None? {
          return Interpreter.Stops(Panicked(Interpreter.NIL_DEREFERENCE));
        }
        p := Interpreter.GoesOn(Interpreter.BindCtx(locals, |ctxs|), next);
        DeriveNoTx(c.value);
      case Write(ref, v, next) =>
        var db := PickHandle(locals, ref);
        if db.None? {
          return Interpreter.Stops(Panicked(Interpreter.NIL_DEREFERENCE));
        }
        var err := Write(db.value, v);
        p := Interpreter.GoesOn(locals.(errs := locals.errs + [err]), next);
      case IfError(i, failed, passed) =>
        p := Interpreter.GoesOn(locals, if Interpreter.ErrAt(locals, i).Some? then failed else passed);
      case Invoke(tag, branches) =>
        var choice := env.input(|provider.trace|);
        Record(Invoked(tag));
        if |branches| == 0 {
          return Interpreter.Stops(Returned(None, None));
        }
        p := Interpreter.GoesOn(locals, branches[choice % |branches|]);
    }

    /** The statements of a job, one after the other. */
    method Exec(locals: Locals, job: Job) returns (o: Outcome)
      requires Valid()
      modifies Repr()
      ensures Valid() && fresh(Repr() - old(Repr())) && Extends(old(chans))
      ensures (world, o) == Interpreter.Exec(env, old(world), locals, job)
      decreases job, 0
    {
      hide Grows, Interpreter.RunCall, Interpreter.Act;
      if job.Run? {
        var res, err := RunCall(locals, job.call);
        o := Exec(locals.(errs := locals.errs + [err], results := locals.results + [res]), job.next);
      } else {
        var p := Act(locals, job);
        match p
        case Stops(outcome) => o := outcome;
        case GoesOn(locals', next) => o := Exec(locals', next);
      }
    }

    // ----- Runs -----

    method Fallback(raw: RawCtx, ext: Option<nat>) returns (db: Option<DB>)
      requires Valid()
      ensures db == FallbackDB(env, raw, ext, Interpreter.Now(world))
    {
      db := defaultFallbackDB;
      if env.dynamicFallbackDB {
        db := ProviderDB(env, NoTxOpts(Some(raw), ext), |provider.trace|);
      }
    }

    /** A new root context joins the program's. */
    method Enter(c: ContextImpl, ghost raw: RawCtx, ghost db: Option<DB>, ghost fallbackDB: Option<DB>)
      requires Valid()
      requires c.common.raw == raw && c.common.db == db && c.fallbackDB == fallbackDB
      requires c.common.closeCh !in Repr() && c.common.closeCh.isOpen && c.common.closeCh.id == |chans|
      modifies this, provider
      ensures Valid() && chans == old(chans) + [c.common.closeCh] && ctxs == old(ctxs) + [c]
      ensures world == Interpreter.NewContext(old(world), raw, db, fallbackDB)
    {
      provider.Record(Event.Enter(|chans|, |ctxs|, Ctx(c.common.raw, c.common.db, c.fallbackDB, |chans|)));
      ctxs := ctxs + [c];
      chans := chans + [c.common.closeCh];
      world := Interpreter.NewContext(world, raw, db, fallbackDB);
    }

    /** The channel is open: this is the one time it is closed. */
    method Close(c: ContextImpl, ghost ch: ChanId)
      requires Valid() && ch < |chans| && world.chans[ch] && c.common.closeCh == chans[ch]
      modifies this`world, provider`trace, chans[ch]
      ensures Valid() && world == Interpreter.Close(old(world), ch)
    {
      c.common.Close();
      provider.Record(Closed(c.common.closeCh.id));
      world := Interpreter.Close(world, ch);
    }

    /** Begin a transaction and make the context its job will get; there is none when begin fails. */
    method OpenTx(opts: TxOpts) returns (tx: TxId, c: ContextImpl?, err: Option<Error>)
      requires Valid() && opts.ctx.Some?
      modifies this, provider
      ensures Valid() && err == env.begin(Interpreter.Now(old(world))) && (err.Some? <==> c == null)
      ensures c == null ==> chans == old(chans) && world == Interpreter.Log(old(world), BeginErr(opts, err.value))
      ensures c != null ==>
                && tx == |old(world).txs|
                && world == Interpreter.OpenTx(env, old(world), opts, opts.ctx.value)
                && fresh(c.common.closeCh) && chans == old(chans) + [c.common.closeCh]
    {
      var raw := opts.ctx.value;
      tx, err := provider.BeginTx(opts, world);
      if err.Some? {
        world := Interpreter.Log(world, BeginErr(opts, err.value));
        c := null;
      } else {
        world := Interpreter.Begin(world, opts);
        var fallbackDB := Fallback(raw, opts.ext);
        c := new ContextImpl.NewTx(raw, Some(TxHandle(tx)), fallbackDB, |chans|);
        Enter(c, raw, Some(TxHandle(tx)), fallbackDB);
      }
    }

    method NewNoTxRoot(opts: NoTxOpts) returns (c: ContextImpl)
      requires Valid() && opts.ctx.Some?
      modifies this, provider
      ensures Valid() && fresh(c.common.closeCh) && chans == old(chans) + [c.common.closeCh]
      ensures world == Interpreter.NewContext(old(world), opts.ctx.value,
                                              ProviderDB(env, opts, Interpreter.Now(old(world))), None)
    {
      var db := ProviderDB(env, opts, |provider.trace|);
      c := new ContextImpl.NewNoTx(opts.ctx.value, db, |chans|);
      Enter(c, opts.ctx.value, db, None);
    }

    method RunTx(locals: Locals, call: Call) returns (res: Res, err: Option<Error>)
      requires Valid() && call.TxCall?
      modifies Repr()
      ensures Valid() && fresh(Repr() - old(Repr())) && Extends(old(chans))
      ensures Interpreter.CallResult(world, res, err) == Interpreter.RunTx(env, old(world), locals, call)
      decreases call, 0
    {
      hide Grows, Interpreter.Exec, Interpreter.FinishTx, Interpreter.RunCall, ValidEnv;
      var opts := call.txOpts;
      if opts.ctx == None {
        opts := opts.(ctx := Some(Background));
      }
      var root, ch := |ctxs|, |chans|;
      var tx, newCtx, beginErr := OpenTx(opts);
      if newCtx == null {
        return None, Some(Wrap(BeginTx, beginErr.value));
      }
      ghost var w1 := world;
      var o := Exec(Interpreter.BindCtx(locals, root), call.body);
      TransactionStaysActive(w1, world, tx);
      ChannelStaysOpen(w1, world, ch);
      res, err := Conclude(tx, ch, newCtx, o);
    }

    /** From the job's end to the return: commit, recover, roll back, close. */
    method Conclude(tx: TxId, ghost ch: ChanId, newCtx: ContextImpl, o: Outcome) returns (res: Res, err: Option<Error>)
      requires Valid() && tx < |world.txs| && world.txs[tx].status == Active
      requires ch < |chans| && world.chans[ch] && newCtx.common.closeCh == chans[ch]
      modifies this`world, provider, chans[ch]
      ensures Valid()
      ensures Interpreter.CallResult(world, res, err) == Interpreter.FinishTx(env, old(world), tx, ch, o)
    {
      res, err := None, None;
      hide Grows, ValidEnv;
      match o {
        case Panicked(v) => err := Some(Error(Panic(v), []));
        case Returned(r, e) =>
          err := e;
          if err.None? {
            var answer := provider.Commit(tx, world);
            world := Interpreter.Commit(env, world, tx);
            match answer {
              case CommitDone => res := r;
              case CommitFails(e) => err := Some(Wrap(CommitTx, e));
              case CommitPanics(v) => err := Some(Error(Panic(v), []));
            }
          }
      }
      err := Deferred(tx, ch, newCtx, res, err);
    }

    /** The deferred block after it has recovered. */
    method Deferred(tx: TxId, ghost ch: ChanId, newCtx: ContextImpl, ghost res: Res, err: Option<Error>)
      returns (err': Option<Error>)
      requires Valid() && tx < |world.txs| && (err.None? ==> world.txs[tx].status == Committed)
      requires ch < |chans| && world.chans[ch] && newCtx.common.closeCh == chans[ch]
      modifies this`world, provider, chans[ch]
      ensures Valid()
      ensures Interpreter.CallResult(world, res, err') == Interpreter.Deferred(env, old(world), tx, ch, res, err)
    {
      hide Grows, ValidEnv;
      err' := err;
      if err.Some? {
        var err2 := provider.Rollback(tx, world);
        world := Interpreter.Rollback(env, world, tx);
        if err2.Some? {
          err' := Some(Wrap(RollbackTx(err2.value), err.value));
        }
      }
      Close(newCtx, ch);
    }

    method RunNoTx(locals: Locals, call: Call) returns (res: Res, err: Option<Error>)
      requires Valid() && call.NoTxCall?
      modifies Repr()
      ensures Valid() && fresh(Repr() - old(Repr())) && Extends(old(chans))
      ensures Interpreter.CallResult(world, res, err) == Interpreter.RunNoTx(env, old(world), locals, call)
      decreases call, 0
    {
      hide Grows, Interpreter.Exec, Interpreter.RunCall, ValidEnv;
      var opts := call.noTxOpts;
      if opts.ctx == None {
        opts := opts.(ctx := Some(Background));
      }
      var root, ch := |ctxs|, |chans|;
      var newCtx := NewNoTxRoot(opts);
      ghost var w1 := world;
      var o := Exec(Interpreter.BindCtx(locals, root), call.body);
      ChannelStaysOpen(w1, world, ch);
      match o {
        case Panicked(v) => res, err := None, Some(Error(Panic(v), []));
        case Returned(r, e) => res, err := r, e;
      }
      Close(newCtx, ch);
    }

    /** Let the jittered delay of round i pass. */
    method Wait(i: nat)
      requires Valid() && env.retrier.Some? && i < |env.retrier.value.retryDelays|
      modifies this`world, provider`trace
      ensures Valid() && world == Interpreter.Log(old(world), Waited(Interpreter.Delay(env, old(world), i)))
    {
      var r := env.retrier.value;
      assert r.retryDelays[i] in r.retryDelays;
      Record(Waited(Retrier.CalcDelay(r.retryDelays[i], r.jitter, env.floats, env.draw(|provider.trace|)).value));
    }

    /** The retry loop. */
    method Do(ctx: RawCtx, fn: Closure) returns (err: Option<Error>)
      requires Valid() && fn.m == this && fn !in Repr() && env.retrier.Some?
      requires ctx == Interpreter.CallCtx(fn.call)
      modifies fn, Repr()
      ensures Valid() && fresh(Repr() - old(Repr())) && Extends(old(chans)) && fn !in Repr()
      ensures Interpreter.CallResult(world, fn.res, err)
           == Interpreter.Do(env, old(world), fn.l, fn.call, 0, old(fn.res))
      decreases fn.call, 2
    {
      hide Grows, Interpreter.Attempt, NeedRetry, Interpreter.Delay;
      var r := env.retrier.value;
      ghost var result := Interpreter.Do(env, world, fn.l, fn.call, 0, fn.res);
      err := None;
      var i := 0;
      while i < |r.retryDelays|
        invariant 0 <= i <= |r.retryDelays|
        invariant Valid() && fresh(Repr() - old(Repr())) && Extends(old(chans)) && fn !in Repr()
        invariant i < |r.retryDelays| ==> result == Interpreter.Do(env, world, fn.l, fn.call, i, fn.res)
        invariant i == |r.retryDelays| ==> result == Interpreter.CallResult(world, fn.res, err)
      {
        var dead := ErrOf(env, ctx, |provider.trace|);
        if dead.Some? {
          return Some(CtxError(dead.value));
        }
        err := fn.Invoke();
        if err.None? || !NeedRetry(err.value) {
          break;
        }
        var cut := ErrOf(env, ctx, |provider.trace|);
        if cut.Some? {
          Record(WaitCut(cut.value));
          return Some(CtxError(cut.value));
        }
        Wait(i);
        i := i + 1;
      }
    }

    method RunWithRetrier(locals: Locals, call: Call) returns (res: Res, err: Option<Error>)
      requires Valid() && env.retrier.Some?
      modifies Repr()
      ensures Valid() && fresh(Repr() - old(Repr())) && Extends(old(chans))
      ensures Interpreter.CallResult(world, res, err) == Interpreter.RunCall(env, old(world), locals, call)
      decreases call, 3
    {
      var ctx := if call.TxCall? then call.txOpts.ctx else call.noTxOpts.ctx;
      if ctx == None {
        ctx := Some(Background);
      }
      var fn := new Closure(this, locals, call);
      err := Do(ctx.value, fn);
      if err.Some? {
        return None, Some(Wrap(Retry, err.value));
      }
      return fn.res, None;
    }

    /** What the caller of `New` gets to call: the manager itself, or the retrying one around it. */
    method RunCall(locals: Locals, call: Call) returns (res: Res, err: Option<Error>)
      requires Valid()
      modifies Repr()
      ensures Valid() && fresh(Repr() - old(Repr())) && Extends(old(chans))
      ensures Interpreter.CallResult(world, res, err) == Interpreter.RunCall(env, old(world), locals, call)
      decreases call, 4
    {
      if env.retrier.Some? {
        res, err := RunWithRetrier(locals, call);
      } else if call.TxCall? {
        res, err := RunTx(locals, call);
      } else {
        res, err := RunNoTx(locals, call);
      }
    }
  }

  // ----- Making a manager -----

  datatype Setting =
    | NilRetrier
    | RetrierParams(jitter: real, delays: seq<Retrier.int64>)
    | UseDefaultRetrier
    | DynamicFallbackDB

  const DEFAULT_DELAYS: seq<Retrier.int64> := [100_000_000, 300_000_000, 600_000_000]

  /** What the manager retries with: what the last setting about it says. */
  function RetrierOf(settings: seq<Setting>): Option<Retrier.DefaultRetrier> {
    if settings == [] then None
    else
      match settings[|settings| - 1]
      case NilRetrier => None
      case RetrierParams(jitter, delays) => Some(Retrier.DefaultRetrier(Retrier.Clamp(jitter), delays + [0]))
      case UseDefaultRetrier => Some(Retrier.DefaultRetrier(0.5, DEFAULT_DELAYS + [0]))
      case DynamicFallbackDB => RetrierOf(settings[..|settings| - 1])
  }

  /** What the last setting about the retrier gives, whatever came before it: no retrier, one with the given delays
      and a last one of zero, its jitter brought into [0, 1], or the default one. */
  lemma {:induction false} LastRetrierSetting(before: seq<Setting>, s: Setting, after: seq<Setting>)
    requires !s.DynamicFallbackDB? && forall j :: 0 <= j < |after| ==> after[j].DynamicFallbackDB?
    ensures RetrierOf(before + [s] + after) ==
      match s
      case NilRetrier => None
      case RetrierParams(jitter, delays) =>
        Some(Retrier.DefaultRetrier(if jitter < 0.0 then 0.0 else if 1.0 < jitter then 1.0 else jitter, delays + [0]))
      case UseDefaultRetrier =>
        Some(Retrier.DefaultRetrier(0.5, [100_000_000, 300_000_000, 600_000_000, 0]))
    decreases |after|
  {
    var settings := before + [s] + after;
    if after == [] {
      assert settings[|settings| - 1] == s;
      assert DEFAULT_DELAYS + [0] == [100_000_000, 300_000_000, 600_000_000, 0];
    } else {
      assert settings[..|settings| - 1] == before + [s] + after[..|after| - 1];
      assert settings[|settings| - 1] == after[|after| - 1];
      LastRetrierSetting(before, s, after[..|after| - 1]);
    }
  }

  /** Without such a setting there is no retrier. */
  lemma {:induction false} NoRetrierSetting(settings: seq<Setting>)
    requires forall j :: 0 <= j < |settings| ==> settings[j].DynamicFallbackDB?
    ensures RetrierOf(settings) == None
  {
    if settings == [] {
    } else {
      NoRetrierSetting(settings[..|settings| - 1]);
    }
  }

  /** The delays that count, those of the last setting about them, are of valid size. */
  predicate DelaysValid(settings: seq<Setting>) {
    settings == [] ||
    match settings[|settings| - 1]
    case RetrierParams(_, delays) => forall d | d in delays :: Retrier.ValidDelay(d)
    case DynamicFallbackDB => DelaysValid(settings[..|settings| - 1])
    case _ => true
  }

  /** `New`: the settings are applied in order, over answers the surroundings will give. Jitter settings cannot
      spoil a manager, and neither can delays that a later setting replaces. */
  method New(surroundings: Env, settings: seq<Setting>) returns (m: TxManager)
    ensures fresh(m.Repr()) && m.world == EMPTY_WORLD
    ensures m.env == surroundings.(retrier := RetrierOf(settings), dynamicFallbackDB := DynamicFallbackDB in settings)
    ensures m.Valid() <==> Retrier.Float64(surroundings.floats) && DelaysValid(settings)
  {
    var retrier: Option<Retrier.DefaultRetrier> := None;
    var dynamicFallbackDB := false;
    for i := 0 to |settings|
      invariant dynamicFallbackDB <==> DynamicFallbackDB in settings[..i]
      invariant retrier == RetrierOf(settings[..i])
      invariant (retrier.Some? ==> Retrier.ValidRetrier(retrier.value)) <==> DelaysValid(settings[..i])
    {
      assert settings[..i + 1] == settings[..i] + [settings[i]];
      assert settings[..i + 1][..i] == settings[..i];
      match settings[i] {
        case NilRetrier =>
          retrier := None;
        case RetrierParams(jitter, delays) =>
          var r := Retrier.NewDefaultRetrier(jitter, delays);
          retrier := Some(r);
        case UseDefaultRetrier =>
          var r := Retrier.NewDefaultRetrier(0.5, DEFAULT_DELAYS);
          retrier := Some(r);
        case DynamicFallbackDB =>
          dynamicFallbackDB := true;
      }
    }
    assert settings[..|settings|] == settings;
    m := new TxManager(surroundings.(retrier := retrier, dynamicFallbackDB := dynamicFallbackDB));
  }
}
