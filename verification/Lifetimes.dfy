/** When contexts and transactions are alive, at every point of every trace. */
module Lifetimes {
  import opened Options
  import opened World
  import opened Interpreter
  import opened Protocol
  import opened Bracketing

  /** Before position i of the trace, channel ch was made and is (or is not) closed yet. */
  ghost predicate OpenBefore(tr: seq<Event>, i: nat, ch: ChanId)
    requires i <= |tr|
  {
    OpensOf(tr[..i], ch) == 1 && ClosesOf(tr[..i], ch) == 0
  }

  ghost predicate ClosedBefore(tr: seq<Event>, i: nat, ch: ChanId)
    requires i <= |tr|
  {
    OpensOf(tr[..i], ch) == 1 && ClosesOf(tr[..i], ch) == 1
  }

  /** Before position i, t began, and neither a commit (in vain or not) nor a rollback of it was tried. */
  ghost predicate UntouchedBefore(tr: seq<Event>, i: nat, t: TxId)
    requires i <= |tr|
  {
    && Begun(tr[..i], t) == 1
    && CommitsOf(tr[..i], t) == 0 && FailedCommitsOf(tr[..i], t) == 0 && RollbacksOf(tr[..i], t) == 0
  }

  /** Position k is the entry of a run: of the one that began t right before, or of one without transaction. */
  ghost predicate EntersAt(tr: seq<Event>, k: nat, t: Option<TxId>) {
    && k < |tr| && tr[k].Enter?
    && match t
       case Some(x) => k > 0 && Begins(tr[k - 1], x)
       case None => k == 0 || !tr[k - 1].BeginOk?
  }

  /** At position i the run that entered at k is in progress, and no run that entered later is. */
  ghost predicate InnermostAt(tr: seq<Event>, i: nat, k: nat)
    requires i <= |tr|
  {
    && k < i && tr[k].Enter? && OpenBefore(tr, i, tr[k].ch)
    && forall j :: k < j < i && tr[j].Enter? ==> ClosedBefore(tr, i, tr[j].ch)
  }

  /** The run of t, which entered at k, has its channel closed right after position i. */
  ghost predicate ClosesRunOf(tr: seq<Event>, i: nat, k: nat, t: TxId) {
    k < i && i + 1 < |tr| && EntersAt(tr, k, Some(t)) && tr[i + 1] == Closed(tr[k].ch)
  }

  /** The run whose job stopped at position i, the innermost one, is ended by what comes next: a rollback of its
      transaction, or the closing of its channel if it has none. */
  ghost predicate AbortsRun(tr: seq<Event>, i: nat, k: nat, t: Option<TxId>) {
    && i + 1 < |tr| && InnermostAt(tr, i, k) && EntersAt(tr, k, t)
    && (if t.Some? then RollsBack(tr[i + 1], t.value) else tr[i + 1] == Closed(tr[k].ch))
  }

  /** What every event of a trace presupposes, and what it obliges the very next one to be. */
  ghost predicate Lawful(tr: seq<Event>, i: nat)
    requires i < |tr|
  {
    match tr[i]
    case Got(_, ch, _) => OpenBefore(tr, i, ch)
    case Refused(_, ch) => ClosedBefore(tr, i, ch) && exists k: nat, t :: AbortsRun(tr, i, k, t)
    case Closed(ch) => OpenBefore(tr, i, ch)
    case Wrote(TxHandle(t), _) => UntouchedBefore(tr, i, t)
    case CommitOk(t) => UntouchedBefore(tr, i, t) && exists k: nat :: ClosesRunOf(tr, i, k, t)
    case CommitErr(t, _) => UntouchedBefore(tr, i, t) && i + 1 < |tr| && RollsBack(tr[i + 1], t)
    case CommitPanic(t, _) => UntouchedBefore(tr, i, t) && i + 1 < |tr| && RollsBack(tr[i + 1], t)
    case RolledBack(t, _) =>
      && Begun(tr[..i], t) == 1 && CommitsOf(tr[..i], t) == 0 && RollbacksOf(tr[..i], t) == 0
      && exists k: nat :: ClosesRunOf(tr, i, k, t)
    case _ => true
  }

  lemma {:induction false} PrefixRuns(m: Monitor, tr: seq<Event>, i: nat)
    requires RunAll(m, tr).Some? && i < |tr|
    ensures RunAll(m, tr[..i]).Some?
    ensures Step(RunAll(m, tr[..i]).value, tr[i]).Some?
    decreases i
  {
    if i == 0 {
    } else {
      PrefixRuns(Step(m, tr[0]).value, tr[1..], i - 1);
      assert tr[..i][1..] == tr[1..][..i - 1];
    }
  }

  lemma {:induction false} FoundMeansHeld(s: Stack, ch: ChanId)
    ensures FindOpen(s, ch).Some? <==> OpenFrames(s, ch) > 0
  {
    if s.Bottom? {
    } else {
      FoundMeansHeld(s.rest, ch);
    }
  }

  lemma {:induction false} ActiveMeansUnended(s: Stack, t: TxId)
    ensures Owing(s, t) <= Unended(s, t)
    ensures ActiveIn(s, t) ==> Owing(s, t) < Unended(s, t)
  {
    if s.Bottom? {
    } else {
      ActiveMeansUnended(s.rest, t);
    }
  }

  /** The next event exists and is accepted, when the trace still has to get rid of the innermost run. */
  lemma NextStep(m: Monitor, tr: seq<Event>, i: nat)
    requires RunAll(m, tr).Some? && i < |tr|
    ensures RunAll(m, tr[..i]).Some?
    ensures var m' := Step(RunAll(m, tr[..i]).value, tr[i]);
            && m'.Some?
            && (i + 1 < |tr| ==> Step(m'.value, tr[i + 1]).Some?)
            && (i + 1 == |tr| ==> RunAll(m, tr) == m')
  {
    PrefixRuns(m, tr, i);
    var m1 := RunAll(m, tr[..i]).value;
    assert tr[..i + 1] == tr[..i] + [tr[i]];
    RunAllAppend(m, tr[..i], [tr[i]]);
    assert RunAll(m1, [tr[i]]) == Step(m1, tr[i]) by {
      assert RunAll(Step(m1, tr[i]).value, []) == Step(m1, tr[i]);
    }
    if i + 1 < |tr| {
      PrefixRuns(m, tr, i + 1);
    } else {
      assert tr[..i + 1] == tr;
    }
  }

  // ----- Where the runs in progress came from -----

  /** Whose transaction the frame is to end. */
  function OwnedBy(f: Frame): Option<TxId>
    requires f.Working? || f.Aborting? || f.Failing?
  {
    if f.Failing? then Some(f.tx) else f.owned
  }

  /** The frame's run entered at position k of the trace; of a run in its job, the context is known too. */
  ghost predicate EnteredAt(env: Env, tr: seq<Event>, f: Frame, k: nat)
    requires f.Working? || f.Aborting? || f.Failing?
  {
    && EntersAt(tr, k, OwnedBy(f)) && tr[k].ch == f.ch
    && (f.Working? ==>
          && tr[k] == Enter(f.ch, f.root, f.ctx)
          && match f.owned
             case Some(t) => RootOf(env, t, tr[k - 1].opts, f.ctx, k)
             case None => NotTransactional(f.ctx.db) && f.ctx.fallbackDB.None?)
  }

  /** No channel made after position k is open in the stack. */
  ghost predicate NewestAt(s: Stack, tr: seq<Event>, k: nat) {
    forall j :: k < j < |tr| && tr[j].Enter? ==> FindOpen(s, tr[j].ch).None?
  }

  /** Every run in progress entered somewhere, those further down the stack before those further up. */
  ghost predicate Rooted(env: Env, s: Stack, tr: seq<Event>) {
    s.Push? ==>
      && (s.top.Opening? ==> |tr| > 0 && tr[|tr| - 1] == BeginOk(s.top.tx, s.top.opts))
      && (s.top.Working? || s.top.Aborting? || s.top.Failing? ==>
            exists k: nat :: EnteredAt(env, tr, s.top, k) && NewestAt(s, tr, k))
      && (s.rest.Push? ==> s.rest.top.Working?)
      && Rooted(env, s.rest, tr)
  }

  /** A begin is the last event only while its run has not entered yet. */
  ghost predicate BeginPending(s: Stack, tr: seq<Event>) {
    |tr| > 0 && tr[|tr| - 1].BeginOk? ==> s.Push? && s.top.Opening?
  }

  /** e makes no channel that the stack holds. */
  ghost predicate MakesNew(s: Stack, e: Event) {
    e.Enter? ==> FindOpen(s, e.ch).None?
  }

  lemma {:induction false} RootedMore(env: Env, s: Stack, tr: seq<Event>, e: Event)
    requires Rooted(env, s, tr) && (s.Push? ==> !s.top.Opening?) && MakesNew(s, e)
    ensures Rooted(env, s, tr + [e])
  {
    if s.Bottom? {
    } else {
      RootedMore(env, s.rest, tr, e);
      if s.top.Working? || s.top.Aborting? || s.top.Failing? {
        var k: nat :| EnteredAt(env, tr, s.top, k) && NewestAt(s, tr, k);
        assert EnteredAt(env, tr + [e], s.top, k) && NewestAt(s, tr + [e], k);
      }
    }
  }

  /** The run that just entered. */
  lemma EnterRooted(m: Monitor, tr: seq<Event>, e: Event)
    requires Rooted(m.env, m.stack, tr) && BeginPending(m.stack, tr) && MakesNew(m.stack, e)
    requires e.Enter? && Step(m, e).Some? && m.now == |tr|
    ensures Rooted(m.env, Step(m, e).value.stack, tr + [e])
  {
    var s, s' := m.stack, Step(m, e).value.stack;
    if s.Push? && s.top.Opening? {
      RootedMore(m.env, s.rest, tr, e);
    } else {
      RootedMore(m.env, s, tr, e);
    }
    assert EnteredAt(m.env, tr + [e], s'.top, |tr|) && NewestAt(s', tr + [e], |tr|);
  }

  lemma StepRooted(m: Monitor, tr: seq<Event>, e: Event)
    requires Rooted(m.env, m.stack, tr) && BeginPending(m.stack, tr) && MakesNew(m.stack, e)
    requires Step(m, e).Some? && m.now == |tr|
    ensures Rooted(m.env, Step(m, e).value.stack, tr + [e])
    ensures BeginPending(Step(m, e).value.stack, tr + [e])
  {
    var s, s' := m.stack, Step(m, e).value.stack;
    if e.Enter? {
      EnterRooted(m, tr, e);
    } else {
      RootedMore(m.env, s, tr, e);
      if s'.Push? && (s'.top.Aborting? || s'.top.Failing?) && s' != s {
        var k: nat :| EnteredAt(m.env, tr + [e], s.top, k) && NewestAt(s, tr + [e], k);
        assert EnteredAt(m.env, tr + [e], s'.top, k) && NewestAt(s', tr + [e], k);
      }
    }
  }

  lemma NothingRooted(env: Env, tr: seq<Event>)
    ensures Rooted(env, Bottom, tr)
  {
  }

  /** The next event keeps the environment, counts, and makes no channel that is already held. */
  lemma NextIsNew(m: Monitor, tr: seq<Event>, e: Event)
    requires m.stack == Bottom && RunAll(m, tr).Some? && Step(RunAll(m, tr).value, e).Some?
    ensures var m1 := RunAll(m, tr).value;
            && MakesNew(m1.stack, e)
            && Step(m1, e).value.env == m1.env && Step(m1, e).value.now == m1.now + 1
  {
    if e.Enter? {
      ChannelsBalance(m, tr, e.ch);
      FoundMeansHeld(RunAll(m, tr).value.stack, e.ch);
    }
  }

  lemma {:induction false} PrefixRooted(m: Monitor, tr: seq<Event>, i: nat)
    requires m.stack == Bottom && m.now == 0 && RunAll(m, tr).Some? && i <= |tr|
    ensures RunAll(m, tr[..i]).Some? && RunAll(m, tr[..i]).value.env == m.env && RunAll(m, tr[..i]).value.now == i
    ensures Rooted(m.env, RunAll(m, tr[..i]).value.stack, tr[..i])
    ensures BeginPending(RunAll(m, tr[..i]).value.stack, tr[..i])
  {
    hide Rooted, Step, MakesNew;
    if i == 0 {
      NothingRooted(m.env, tr[..0]);
    } else {
      PrefixRooted(m, tr, i - 1);
      PrefixRuns(m, tr, i - 1);
      var m1, e := RunAll(m, tr[..i - 1]).value, tr[i - 1];
      assert tr[..i] == tr[..i - 1] + [e];
      RunAllAppend(m, tr[..i - 1], [e]);
      assert RunAll(Step(m1, e).value, []) == Step(m1, e);
      NextIsNew(m, tr[..i - 1], e);
      StepRooted(m1, tr[..i - 1], e);
    }
  }

  // ----- Accepted traces are lawful -----

  lemma {:induction false} EnterCounts(tr: seq<Event>, j: nat)
    requires j < |tr| && tr[j].Enter?
    ensures OpensOf(tr, tr[j].ch) > 0
  {
    if j == 0 {
    } else {
      EnterCounts(tr[1..], j - 1);
    }
  }

  /** The run on top of the stack is the innermost one. */
  lemma TopIsInnermost(m: Monitor, tr: seq<Event>, i: nat, k: nat)
    requires m.stack == Bottom && m.chans == 0 && i <= |tr|
    requires RunAll(m, tr[..i]).Some?
    requires var s := RunAll(m, tr[..i]).value.stack;
             s.Push? && s.top.Working? && EnteredAt(m.env, tr[..i], s.top, k) && NewestAt(s, tr[..i], k)
    ensures InnermostAt(tr, i, k)
  {
    var s := RunAll(m, tr[..i]).value.stack;
    ChannelsBalance(m, tr[..i], s.top.ch);
    forall j | k < j < i && tr[j].Enter? ensures ClosedBefore(tr, i, tr[j].ch) {
      assert tr[..i][j] == tr[j];
      EnterCounts(tr[..i], j);
      ChannelsBalance(m, tr[..i], tr[j].ch);
      FoundMeansHeld(s, tr[j].ch);
    }
  }

  /** The trace follows the protocol from nothing to nothing. */
  predicate Complete(env: Env, tr: seq<Event>) {
    var m := RunAll(Monitor(env, Bottom, 0, 0, 0), tr);
    m.Some? && m.value.stack == Bottom
  }

  /** A transaction's end is followed by the closing of its run's channel. */
  lemma EndThenClose(env: Env, tr: seq<Event>, i: nat, t: TxId)
    requires Complete(env, tr)
    requires i < |tr| && (tr[i] == CommitOk(t) || RollsBack(tr[i], t))
    ensures exists k: nat :: ClosesRunOf(tr, i, k, t)
  {
    var m := Monitor(env, Bottom, 0, 0, 0);
    PrefixRooted(m, tr, i);
    NextStep(m, tr, i);
    var s := RunAll(m, tr[..i]).value.stack;
    var k: nat :| EnteredAt(env, tr[..i], s.top, k) && NewestAt(s, tr[..i], k);
    assert tr[..i][k] == tr[k] && tr[..i][k - 1] == tr[k - 1];
    assert ClosesRunOf(tr, i, k, t);
  }

  /** A refusal is followed by the end of the run that asked. */
  lemma RefusedThenAborted(env: Env, tr: seq<Event>, i: nat)
    requires Complete(env, tr)
    requires i < |tr| && tr[i].Refused?
    ensures exists k: nat, t :: AbortsRun(tr, i, k, t)
  {
    var m := Monitor(env, Bottom, 0, 0, 0);
    PrefixRooted(m, tr, i);
    NextStep(m, tr, i);
    var s := RunAll(m, tr[..i]).value.stack;
    var k: nat :| EnteredAt(env, tr[..i], s.top, k) && NewestAt(s, tr[..i], k);
    assert tr[..i][k] == tr[k] && (k > 0 ==> tr[..i][k - 1] == tr[k - 1]);
    TopIsInnermost(m, tr, i, k);
    assert AbortsRun(tr, i, k, s.top.owned);
  }

  lemma ContextEventLawful(env: Env, tr: seq<Event>, i: nat)
    requires Complete(env, tr) && i < |tr|
    requires tr[i].Got? || tr[i].Refused? || tr[i].Closed?
    ensures Lawful(tr, i)
  {
    hide AbortsRun;
    var m := Monitor(env, Bottom, 0, 0, 0);
    NextStep(m, tr, i);
    ChannelsBalance(m, tr[..i], tr[i].ch);
    FoundMeansHeld(RunAll(m, tr[..i]).value.stack, tr[i].ch);
    if tr[i].Refused? {
      RefusedThenAborted(env, tr, i);
    }
  }

  /** The transaction an event writes to or ends. */
  function Touched(e: Event): Option<TxId> {
    match e
    case Wrote(TxHandle(t), _) => Some(t)
    case CommitOk(t) => Some(t)
    case CommitErr(t, _) => Some(t)
    case CommitPanic(t, _) => Some(t)
    case RolledBack(t, _) => Some(t)
    case _ => None
  }

  lemma TransactionEventLawful(env: Env, tr: seq<Event>, i: nat)
    requires Complete(env, tr) && i < |tr| && Touched(tr[i]).Some?
    ensures Lawful(tr, i)
  {
    hide ClosesRunOf;
    var m, t := Monitor(env, Bottom, 0, 0, 0), Touched(tr[i]).value;
    NextStep(m, tr, i);
    TransactionsBalance(m, tr[..i], t);
    ActiveMeansUnended(RunAll(m, tr[..i]).value.stack, t);
    if tr[i].CommitOk? || tr[i].RolledBack? {
      EndThenClose(env, tr, i, t);
    }
  }

  /** Protocol traces from nothing to nothing are lawful throughout. */
  lemma AcceptedIsLawful(env: Env, tr: seq<Event>, i: nat)
    requires Complete(env, tr)
    requires i < |tr|
    ensures Lawful(tr, i)
  {
    hide Complete;
    if tr[i].Got? || tr[i].Refused? || tr[i].Closed? {
      ContextEventLawful(env, tr, i);
    } else if Touched(tr[i]).Some? {
      TransactionEventLawful(env, tr, i);
    }
  }

  /** Whatever the program does, at every depth of nesting: contexts yield exactly while their run's channel is
      open, and asking a dead one ends the run that asked; no channel is closed twice; transactions are written to
      and finished only while untouched; a failed commit is rolled back at once; and between the end of a
      transaction and the closing of its run's channel nothing else happens. */
  lemma ProgramIsLawful(env: Env, calls: seq<Call>, i: nat)
    requires ValidEnv(env) && i < |RunProgram(env, calls).trace|
    ensures Lawful(RunProgram(env, calls).trace, i)
  {
    hide RunProgram;
    ProgramAccepted(env, calls);
    AcceptedIsLawful(env, RunProgram(env, calls).trace, i);
  }

  // ----- Which DB a context yields -----

  /** What context c got at position i follows from how its run entered at k: the root context of a
      transactional run yields that run's handle, every other context on its channel what the provider
      answered, with the dynamic setting to the run's options at k, without it to empty options at the start; a run
      without transaction yields its own DB through its root alone. */
  ghost predicate RoutedFrom(env: Env, tr: seq<Event>, i: nat, k: nat)
    requires k < i < |tr| && tr[i].Got?
  {
    && tr[k].Enter? && tr[k].ch == tr[i].ch
    && if k > 0 && tr[k - 1].BeginOk? then
         if tr[i].c == tr[k].root then tr[i].db == TxHandle(tr[k - 1].tx)
         else
           && tr[i].db.Pool?
           && var asked := tr[k - 1].opts;
              Some(tr[i].db.id) == if env.dynamicFallbackDB then env.pool(NoTxOpts(asked.ctx, asked.ext), k)
                                   else env.pool(NoTxOpts(None, None), 0)
       else
         tr[i].c == tr[k].root && tr[i].db.Pool? && Some(tr[i].db) == tr[k].ctx.db
  }

  lemma {:induction false} FoundRooted(env: Env, s: Stack, tr: seq<Event>, ch: ChanId)
    requires Rooted(env, s, tr)
    ensures FindOpen(s, ch).Some? && FindOpen(s, ch).value.Working? ==>
              exists k: nat :: EnteredAt(env, tr, FindOpen(s, ch).value, k)
  {
    if s.Bottom? {
    } else {
      FoundRooted(env, s.rest, tr, ch);
    }
  }

  /** After a begin nothing comes but the entry of that run. */
  lemma BeginThenEnter(m: Monitor, tr: seq<Event>, k: nat)
    requires m.stack == Bottom && m.now == 0 && RunAll(m, tr).Some? && 0 < k < |tr|
    requires tr[k - 1].BeginOk? && tr[k].Enter?
    ensures RootOf(m.env, tr[k - 1].tx, tr[k - 1].opts, tr[k].ctx, k)
  {
    PrefixRooted(m, tr, k - 1);
    PrefixRuns(m, tr, k - 1);
    PrefixRuns(m, tr, k);
    NextStep(m, tr, k - 1);
  }

  /** The handles contexts yield, in every trace of every program. */
  lemma ProgramRoutesContexts(env: Env, calls: seq<Call>, i: nat)
    requires ValidEnv(env)
    requires i < |RunProgram(env, calls).trace| && RunProgram(env, calls).trace[i].Got?
    ensures exists k :: 0 <= k < i && RoutedFrom(env, RunProgram(env, calls).trace, i, k)
  {
    hide RunProgram;
    var tr := RunProgram(env, calls).trace;
    var m := Monitor(env, Bottom, 0, 0, 0);
    ProgramAccepted(env, calls);
    PrefixRuns(m, tr, i);
    PrefixRooted(m, tr, i);
    var s := RunAll(m, tr[..i]).value.stack;
    FoundRooted(env, s, tr[..i], tr[i].ch);
    var f := FindOpen(s, tr[i].ch).value;
    var k: nat :| EnteredAt(env, tr[..i], f, k);
    assert tr[..i][k] == tr[k];
    if k > 0 {
      assert tr[..i][k - 1] == tr[k - 1];
      if tr[k - 1].BeginOk? {
        BeginThenEnter(m, tr, k);
      }
    }
    assert RoutedFrom(env, tr, i, k);
  }
}
