/** The run protocol as a pushdown monitor over event traces, written without reference to the manager's code:
    which events may happen when, given the stack of runs in progress. */
module Protocol {
  import opened Options
  import opened World

  /** A run in progress: begun but without a context; in its job; with a job that a dead context stopped; with a
      failed commit to roll back; or with nothing left to do but close its channel. */
  datatype Frame =
    | Opening(tx: TxId, opts: TxOpts)
    | Working(owned: Option<TxId>, ch: ChanId, root: CtxId, ctx: Ctx)
    | Aborting(owned: Option<TxId>, ch: ChanId)
    | Failing(tx: TxId, ch: ChanId)
    | Leaving(ch: ChanId)

  datatype Stack = Bottom | Push(top: Frame, rest: Stack)

  /** The environment, the stack, and how many transactions, channels and events there have been. */
  datatype Monitor = Monitor(env: Env, stack: Stack, txs: nat, chans: nat, now: nat)

  predicate JobRunning(s: Stack) {
    s.Push? && s.top.Working?
  }

  /** Calls start from outside any run or from the innermost job. */
  predicate MayCall(s: Stack) {
    s.Bottom? || s.top.Working?
  }

  predicate Holds(f: Frame, ch: ChanId) {
    !f.Opening? && f.ch == ch
  }

  function FindOpen(s: Stack, ch: ChanId): (r: Option<Frame>)
    ensures r.Some? ==> Holds(r.value, ch)
  {
    if s.Bottom? then None
    else if Holds(s.top, ch) then Some(s.top)
    else FindOpen(s.rest, ch)
  }

  predicate Owns(f: Frame, t: TxId) {
    (f.Opening? && f.tx == t) || ((f.Working? || f.Aborting?) && f.owned == Some(t))
  }

  /** The innermost run, its job stopped for good. */
  function Aborted(s: Stack): Stack
    requires JobRunning(s)
  {
    Push(Aborting(s.top.owned, s.top.ch), s.rest)
  }

  /** t has been neither committed nor rolled back. */
  predicate ActiveIn(s: Stack, t: TxId) {
    s.Push? && (Owns(s.top, t) || ActiveIn(s.rest, t))
  }

  /** What a context must yield: the root its own DB, every derived context the run's fallback. */
  function Routed(f: Frame, c: CtxId): Option<DB>
    requires f.Working?
  {
    if c == f.root then f.ctx.db else f.ctx.fallbackDB
  }

  predicate NotTransactional(db: Option<DB>) {
    db.None? || db.value.Pool?
  }

  /** The context a transactional run gives its job: the handle of its own transaction, and the fallback DB,
      which is the default one or the one looked up with the run's own options, when the context is made. */
  predicate RootOf(env: Env, t: TxId, opts: TxOpts, ctx: Ctx, time: nat) {
    && opts.ctx == Some(ctx.raw)
    && ctx.db == Some(TxHandle(t))
    && ctx.fallbackDB == PromisedFallback(env, ctx.raw, opts.ext, time)
  }

  /** What the provider answers: with the dynamic setting, to the run's options when its context is made; without,
      to empty options when the manager was made. */
  function PromisedFallback(env: Env, raw: RawCtx, ext: Option<nat>, time: nat): Option<DB> {
    var id := if env.dynamicFallbackDB then env.pool(NoTxOpts(Some(raw), ext), time)
              else env.pool(NoTxOpts(None, None), 0);
    match id
    case None => None
    case Some(x) => Some(Pool(x))
  }

  /** Nothing else can come next. */
  predicate MustRollBack(f: Frame, t: TxId) {
    (f.Failing? && f.tx == t) || (f.Aborting? && f.owned == Some(t))
  }

  predicate MustClose(f: Frame, ch: ChanId) {
    f == Leaving(ch) || f == Aborting(None, ch)
  }

  /** One event, if it may come next. */
  function Step(m: Monitor, e: Event): Option<Monitor> {
    var m' := Allowed(m, e);
    if m'.None? then None else Some(m'.value.(now := m.now + 1))
  }

  function Allowed(m: Monitor, e: Event): Option<Monitor> {
    var s := m.stack;
    match e
    case BeginOk(tx, opts) =>
      if MayCall(s) && tx == m.txs && opts.ctx.Some? then
        Some(m.(stack := Push(Opening(tx, opts), s), txs := m.txs + 1))
      else None
    case BeginErr(_, _) => if MayCall(s) then Some(m) else None
    case Enter(ch, root, ctx) =>
      if ch != m.chans || ctx.ch != ch then None
      else if s.Push? && s.top.Opening? then
        if RootOf(m.env, s.top.tx, s.top.opts, ctx, m.now) then
          Some(m.(stack := Push(Working(Some(s.top.tx), ch, root, ctx), s.rest), chans := m.chans + 1))
        else None
      else if MayCall(s) && NotTransactional(ctx.db) && ctx.fallbackDB.None? then
        Some(m.(stack := Push(Working(None, ch, root, ctx), s), chans := m.chans + 1))
      else None
    case Got(c, ch, db) =>
      var f := FindOpen(s, ch);
      if JobRunning(s) && f.Some? && f.value.Working? && Routed(f.value, c) == Some(db) then Some(m) else None
    case Refused(_, ch) =>
      if JobRunning(s) && ch < m.chans && FindOpen(s, ch).None? then Some(m.(stack := Aborted(s))) else None
    case Wrote(db, _) => if JobRunning(s) && (db.TxHandle? ==> ActiveIn(s, db.tx)) then Some(m) else None
    case Derived(_, _) => if JobRunning(s) then Some(m) else None
    case WriteErr(_, _) => if JobRunning(s) then Some(m) else None
    case Invoked(_) => if JobRunning(s) then Some(m) else None
    case CommitOk(tx) =>
      if JobRunning(s) && s.top.owned == Some(tx) then Some(m.(stack := Push(Leaving(s.top.ch), s.rest))) else None
    case CommitErr(tx, _) =>
      if JobRunning(s) && s.top.owned == Some(tx) then Some(m.(stack := Push(Failing(tx, s.top.ch), s.rest))) else None
    case CommitPanic(tx, _) =>
      if JobRunning(s) && s.top.owned == Some(tx) then Some(m.(stack := Push(Failing(tx, s.top.ch), s.rest))) else None
    case RolledBack(tx, _) =>
      if s.Push? && (MustRollBack(s.top, tx) || (s.top.Working? && s.top.owned == Some(tx))) then
        Some(m.(stack := Push(Leaving(s.top.ch), s.rest)))
      else None
    case Closed(ch) =>
      if s.Push? && (MustClose(s.top, ch) || (s.top.Working? && s.top.owned.None? && s.top.ch == ch)) then
        Some(m.(stack := s.rest))
      else None
    case Waited(_) => if MayCall(s) then Some(m) else None
    case WaitCut(_) => if MayCall(s) then Some(m) else None
  }

  function RunAll(m: Monitor, tr: seq<Event>): Option<Monitor>
    decreases |tr|
  {
    if tr == [] then Some(m)
    else
      var m1 := Step(m, tr[0]);
      if m1.None? then None else RunAll(m1.value, tr[1..])
  }

  lemma {:induction false} RunAllAppend(m: Monitor, a: seq<Event>, b: seq<Event>)
    requires RunAll(m, a).Some?
    ensures RunAll(m, a + b) == RunAll(RunAll(m, a).value, b)
    decreases |a|
  {
    if a == [] {
      assert a + b == b;
    } else {
      assert (a + b)[1..] == a[1..] + b;
      RunAllAppend(Step(m, a[0]).value, a[1..], b);
    }
  }

  // ----- What acceptance means for a trace -----

  function Count(tr: seq<Event>, p: Event -> bool): nat {
    if tr == [] then 0 else (if p(tr[0]) then 1 else 0) + Count(tr[1..], p)
  }

  predicate Begins(e: Event, t: TxId) { e.BeginOk? && e.tx == t }
  predicate Commits(e: Event, t: TxId) { e.CommitOk? && e.tx == t }
  predicate FailsCommit(e: Event, t: TxId) { (e.CommitErr? || e.CommitPanic?) && e.tx == t }
  predicate RollsBack(e: Event, t: TxId) { e.RolledBack? && e.tx == t }
  predicate Opens(e: Event, ch: ChanId) { e.Enter? && e.ch == ch }
  predicate Closes(e: Event, ch: ChanId) { e.Closed? && e.ch == ch }

  function Begun(tr: seq<Event>, t: TxId): nat { Count(tr, e => Begins(e, t)) }
  function CommitsOf(tr: seq<Event>, t: TxId): nat { Count(tr, e => Commits(e, t)) }
  function FailedCommitsOf(tr: seq<Event>, t: TxId): nat { Count(tr, e => FailsCommit(e, t)) }
  function RollbacksOf(tr: seq<Event>, t: TxId): nat { Count(tr, e => RollsBack(e, t)) }
  function OpensOf(tr: seq<Event>, ch: ChanId): nat { Count(tr, e => Opens(e, ch)) }
  function ClosesOf(tr: seq<Event>, ch: ChanId): nat { Count(tr, e => Closes(e, ch)) }

  /** How many frames hold t unended, and how many of them owe it a rollback. */
  function Unended(s: Stack, t: TxId): nat {
    if s.Bottom? then 0
    else (if Owns(s.top, t) || (s.top.Failing? && s.top.tx == t) then 1 else 0) + Unended(s.rest, t)
  }

  function Owing(s: Stack, t: TxId): nat {
    if s.Bottom? then 0
    else (if s.top.Failing? && s.top.tx == t then 1 else 0) + Owing(s.rest, t)
  }

  function OpenFrames(s: Stack, ch: ChanId): nat {
    if s.Bottom? then 0 else (if Holds(s.top, ch) then 1 else 0) + OpenFrames(s.rest, ch)
  }

  function Fresh(before: nat, id: nat, after: nat): nat {
    if before <= id < after then 1 else 0
  }

  function If(b: bool): nat {
    if b then 1 else 0
  }

  /** One event keeps the balance. */
  lemma StepBalance(m: Monitor, e: Event, t: TxId)
    requires Step(m, e).Some?
    ensures var m' := Step(m, e).value;
            && m.txs <= m'.txs
            && If(Begins(e, t)) == Fresh(m.txs, t, m'.txs)
            && Unended(m.stack, t) + If(Begins(e, t)) == If(Commits(e, t)) + If(RollsBack(e, t)) + Unended(m'.stack, t)
            && Owing(m.stack, t) + If(FailsCommit(e, t)) <= If(RollsBack(e, t)) + Owing(m'.stack, t)
  {
  }

  /** Conservation of transactions along any accepted trace: what began is committed, rolled back or unended;
      a failed commit is owed or got its rollback; identities are new. */
  lemma {:induction false} TransactionsBalance(m: Monitor, tr: seq<Event>, t: TxId)
    requires RunAll(m, tr).Some?
    ensures var m' := RunAll(m, tr).value;
            && m.txs <= m'.txs
            && Begun(tr, t) == Fresh(m.txs, t, m'.txs)
            && Unended(m.stack, t) + Begun(tr, t) == CommitsOf(tr, t) + RollbacksOf(tr, t) + Unended(m'.stack, t)
            && Owing(m.stack, t) + FailedCommitsOf(tr, t) <= RollbacksOf(tr, t) + Owing(m'.stack, t)
    decreases |tr|
  {
    hide Step, Unended, Owing, Begins, Commits, FailsCommit, RollsBack;
    if tr == [] {
    } else {
      StepBalance(m, tr[0], t);
      TransactionsBalance(Step(m, tr[0]).value, tr[1..], t);
    }
  }

  /** Conservation of channels: what was made is closed or still held by a run. */
  lemma {:induction false} ChannelsBalance(m: Monitor, tr: seq<Event>, ch: ChanId)
    requires RunAll(m, tr).Some?
    ensures var m' := RunAll(m, tr).value;
            && m.chans <= m'.chans
            && OpensOf(tr, ch) == Fresh(m.chans, ch, m'.chans)
            && OpenFrames(m.stack, ch) + OpensOf(tr, ch) == ClosesOf(tr, ch) + OpenFrames(m'.stack, ch)
    decreases |tr|
  {
    if tr == [] {
    } else {
      ChannelsBalance(Step(m, tr[0]).value, tr[1..], ch);
    }
  }

  /** A trace that returns to the stack it started from ends every transaction it begins exactly once, by a
      commit or by a rollback, rolls back after every failed commit, and closes every channel it makes once. */
  lemma BracketedTrace(m: Monitor, tr: seq<Event>, t: TxId, ch: ChanId)
    requires RunAll(m, tr).Some? && RunAll(m, tr).value.stack == m.stack
    ensures Begun(tr, t) == CommitsOf(tr, t) + RollbacksOf(tr, t) <= 1
    ensures FailedCommitsOf(tr, t) <= RollbacksOf(tr, t)
    ensures OpensOf(tr, ch) == ClosesOf(tr, ch) <= 1
  {
    TransactionsBalance(m, tr, t);
    ChannelsBalance(m, tr, ch);
  }
}
