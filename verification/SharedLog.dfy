/** The primary log of interleaved runs, thread by thread: threads whose jobs use only their own contexts and handles
    find in the shared log, in order, exactly what they would have written alone. */
module SharedLog {
  import opened World
  import opened Interpreter
  import opened Machine
  import opened Interleaving
  import opened Progress
  import Errors
  import Retrier

  type Log = seq<(TxId, int)>

  /** The part of a log that the given transactions wrote, in order. */
  function PartOf(log: Log, txs: seq<TxId>): Log {
    if log == [] then []
    else PartOf(log[..|log| - 1], txs) + (if log[|log| - 1].0 in txs then [log[|log| - 1]] else [])
  }

  /** A thread's solo log with its transactions under the names they have in the shared world. */
  function Renamed(txs: seq<TxId>, log: Log): Log
    requires forall j :: 0 <= j < |log| ==> log[j].0 < |txs|
  {
    seq(|log|, j requires 0 <= j < |log| => (txs[log[j].0], log[j].1))
  }

  ghost predicate Known(n: nat, log: Log) {
    forall j :: 0 <= j < |log| ==> log[j].0 < n
  }

  /** The thread's part of the shared log is its solo log up to names. */
  ghost predicate SameLog(r: Names, u: World, w: World) {
    && Known(|r.txs|, u.primary) && Known(|w.txs|, w.primary)
    && PartOf(w.primary, r.txs) == Renamed(r.txs, u.primary)
  }

  lemma {:induction false} PartOfAppend(a: Log, b: Log, txs: seq<TxId>)
    ensures PartOf(a + b, txs) == PartOf(a, txs) + PartOf(b, txs)
  {
    if b == [] {
      assert a + b == a;
    } else {
      assert (a + b)[..|a + b| - 1] == a + b[..|b| - 1];
      PartOfAppend(a, b[..|b| - 1], txs);
    }
  }

  lemma {:induction false} AllOrNoPart(log: Log, txs: seq<TxId>)
    ensures (forall j :: 0 <= j < |log| ==> log[j].0 in txs) ==> PartOf(log, txs) == log
    ensures (forall j :: 0 <= j < |log| ==> log[j].0 !in txs) ==> PartOf(log, txs) == []
  {
    if log == [] {
    } else {
      AllOrNoPart(log[..|log| - 1], txs);
    }
  }

  /** New names are of transactions the log does not know yet. */
  lemma {:induction false} PartOfMore(log: Log, txs: seq<TxId>, txs': seq<TxId>, n: nat)
    requires txs <= txs' && Known(n, log) && forall i :: |txs| <= i < |txs'| ==> txs'[i] >= n
    ensures PartOf(log, txs') == PartOf(log, txs)
  {
    if log == [] {
    } else {
      PartOfMore(log[..|log| - 1], txs, txs', n);
    }
  }

  // ----- One step -----

  /** What one step adds to the primary log: the buffer of the transaction it commits. */
  function Committing(env: Env, s: State): Log {
    if s.control.JobEnded? && CommitsNext(s.control.outcome, s.kont) && s.kont.tx < |s.w.txs|
       && env.commit(Now(s.w)).CommitDone?
    then Tagged(s.kont.tx, s.w.txs[s.kont.tx].buffer)
    else []
  }

  lemma MicroLog(env: Env, s: State)
    requires ValidEnv(env) && WellFormed(s.w)
    ensures Micro(env, s).w.primary == s.w.primary + Committing(env, s)
    ensures |s.w.txs| <= |Micro(env, s).w.txs|
  {
    hide WellFormed, Grows, Errors.NeedRetry, Retrier.CalcDelay;
  }

  /** The two machines commit the same, up to names. */
  lemma CommittingSame(env: Env, r: Names, s: State, t: State)
    requires Same(r, s, t)
    ensures Known(|r.txs|, Committing(env, s))
    ensures Committing(env, t) == Renamed(r.txs, Committing(env, s))
    ensures forall j :: 0 <= j < |Committing(env, t)| ==> Committing(env, t)[j].0 in r.txs
    ensures Known(|t.w.txs|, Committing(env, t))
  {
    hide SameTrace, SameCtx, SameLocals;
    TimesAgree(r, s.w, t.w);
    FramesAgree(r, s.w, t.w, s.kont, t.kont);
  }

  lemma RenamedAppend(txs: seq<TxId>, txs': seq<TxId>, a: Log, b: Log)
    requires Known(|txs|, a) && Known(|txs|, b) && txs <= txs'
    ensures Renamed(txs', a + b) == Renamed(txs, a) + Renamed(txs, b)
  {
  }

  /** The thread that steps. */
  lemma MicroSameLog(env: Env, r: Names, r': Names, s: State, t: State)
    requires ValidEnv(env) && Same(r, s, t) && SameLog(r, s.w, t.w) && Extends(r, r', t.w)
    requires WellFormed(s.w) && WellFormed(t.w)
    ensures SameLog(r', Micro(env, s).w, Micro(env, t).w)
  {
    hide Micro, Same, Committing, WellFormed;
    MicroLog(env, s);
    MicroLog(env, t);
    CommittingSame(env, r, s, t);
    MoreSameLog(r.txs, r'.txs, s.w.primary, t.w.primary, Committing(env, s), Committing(env, t), |t.w.txs|);
  }

  lemma MoreSameLog(txs: seq<TxId>, txs': seq<TxId>, solo: Log, log: Log, more: Log, more': Log, n: nat)
    requires Known(|txs|, solo) && Known(n, log) && PartOf(log, txs) == Renamed(txs, solo)
    requires Known(|txs|, more) && more' == Renamed(txs, more)
    requires forall j :: 0 <= j < |more'| ==> more'[j].0 in txs
    requires txs <= txs' && forall i :: |txs| <= i < |txs'| ==> txs'[i] >= n
    ensures Known(|txs'|, solo + more) && PartOf(log + more', txs') == Renamed(txs', solo + more)
  {
    hide PartOf;
    RenamedAppend(txs, txs', solo, more);
    PartOfAppend(log, more', txs');
    PartOfMore(log, txs, txs', n);
    AllOrNoPart(more', txs');
  }

  /** The others. */
  lemma OthersSameLog(env: Env, r: Names, q: Names, s: State, t: State, v: State)
    requires ValidEnv(env) && Same(r, s, t) && Disjoint(q, r) && SameLog(q, v.w, t.w)
    requires WellFormed(t.w)
    ensures SameLog(q, v.w, Micro(env, t).w)
  {
    hide Micro, Same, Committing, WellFormed;
    MicroLog(env, t);
    CommittingSame(env, r, s, t);
    PartOfAppend(t.w.primary, Committing(env, t), q.txs);
    AllOrNoPart(Committing(env, t), q.txs);
  }

  // ----- Whole schedules -----

  /** Every entry of the log is in some thread's part. */
  ghost predicate Accounted(log: Log, rs: seq<Names>) {
    forall j :: 0 <= j < |log| ==> exists i :: 0 <= i < |rs| && log[j].0 in rs[i].txs
  }

  /** All threads' parts, and nothing else, make up the shared log. */
  ghost predicate AllLogged(m: System, solos: seq<State>, rs: seq<Names>) {
    && |solos| == |rs|
    && (forall i :: 0 <= i < |rs| ==> SameLog(rs[i], solos[i].w, m.shared))
    && Accounted(m.shared.primary, rs)
  }

  lemma StepLogged(m: System, solos: seq<State>, rs: seq<Names>, i: nat) returns (rs': seq<Names>)
    requires ValidSystem(m) && Simulated(m, solos, rs) && AllLogged(m, solos, rs) && i < |m.threads|
    ensures WellFormed(solos[i].w)
    ensures Simulated(StepThread(m, i), solos[i := Micro(m.threads[i].env, solos[i])], rs')
    ensures AllLogged(StepThread(m, i), solos[i := Micro(m.threads[i].env, solos[i])], rs')
  {
    hide Same, Micro, SameLog, Disjoint;
    var env, t := m.threads[i].env, View(m, i);
    rs' := StepSimulated(m, solos, rs, i);
    var m', solos' := StepThread(m, i), solos[i := Micro(env, solos[i])];
    assert Same(rs[i], solos[i], t);
    SameLogStateful(rs[i], solos[i].w, m.shared, t.w);
    MicroSameLog(env, rs[i], rs'[i], solos[i], t);
    SameLogStateful(rs'[i], solos'[i].w, Micro(env, t).w, m'.shared);
    forall j | 0 <= j < |rs'| && j != i ensures SameLog(rs'[j], solos'[j].w, m'.shared) {
      assert Disjoint(rs[j], rs[i]);
      SameLogStateful(rs[j], solos[j].w, m.shared, t.w);
      OthersSameLog(env, rs[i], rs[j], solos[i], t, solos[j]);
      SameLogStateful(rs[j], solos[j].w, Micro(env, t).w, m'.shared);
    }
    MicroLog(env, t);
    CommittingSame(env, rs[i], solos[i], t);
    StepAccounted(m.shared.primary, Committing(env, t), rs, rs', i);
  }

  lemma SameLogStateful(r: Names, u: World, w: World, w': World)
    requires SameLog(r, u, w) && w'.primary == w.primary && |w'.txs| == |w.txs|
    ensures SameLog(r, u, w')
  {
  }

  lemma StepAccounted(log: Log, more: Log, rs: seq<Names>, rs': seq<Names>, i: nat)
    requires Accounted(log, rs) && i < |rs| == |rs'| && rs' == rs[i := rs'[i]] && rs[i].txs <= rs'[i].txs
    requires forall j :: 0 <= j < |more| ==> more[j].0 in rs[i].txs
    ensures Accounted(log + more, rs')
  {
    forall j | 0 <= j < |log + more| ensures exists k :: 0 <= k < |rs'| && (log + more)[j].0 in rs'[k].txs {
      if j < |log| {
        var k :| 0 <= k < |rs| && log[j].0 in rs[k].txs;
        assert (log + more)[j].0 in rs'[k].txs;
      } else {
        assert (log + more)[j] == more[j - |log|];
        assert (log + more)[j].0 in rs'[i].txs;
      }
    }
  }

  lemma {:induction false} ScheduleLogged(envs: seq<Env>, calls: seq<Call>, sched: seq<nat>)
    returns (solos: seq<State>, rs: seq<Names>)
    requires |envs| == |calls|
    requires forall i :: 0 <= i < |envs| ==> ValidEnv(envs[i]) && OwnJob(calls[i].body)
    requires ValidSchedule(sched, |envs|)
    ensures SoloStates(envs, calls, sched, solos)
    ensures var m := RunSchedule(Start(envs, calls), sched); Simulated(m, solos, rs) && AllLogged(m, solos, rs)
  {
    hide Micro, OwnJob, Simulated, StepThread, AllLogged;
    var m := Start(envs, calls);
    if sched == [] {
      solos := seq(|envs|, i requires 0 <= i < |envs| => Alone(envs[i], calls[i]));
      rs := seq(|envs|, i => NO_NAMES);
      StartSimulated(envs, calls, solos, rs);
      StartLogged(envs, calls, solos, rs);
    } else {
      var before, i := sched[..|sched| - 1], sched[|sched| - 1];
      var solos0, rs0 := ScheduleLogged(envs, calls, before);
      rs := StepLogged(RunSchedule(m, before), solos0, rs0, i);
      ScheduleKeepsEnvs(m, before, i);
      solos := solos0[i := Micro(envs[i], solos0[i])];
    }
  }

  lemma StartLogged(envs: seq<Env>, calls: seq<Call>, solos: seq<State>, rs: seq<Names>)
    requires |envs| == |calls| == |solos| == |rs|
    requires forall i :: 0 <= i < |envs| ==> solos[i] == Alone(envs[i], calls[i]) && rs[i] == NO_NAMES
    ensures AllLogged(Start(envs, calls), solos, rs)
  {
  }

  /** After any schedule the shared log is an interleaving of the threads' solo logs: each thread's part of it is,
      in order and up to names, what the thread would have written alone by then, the whole log of its call if it
      is done; and every entry is in the part of exactly one thread. */
  lemma SharedLogInterleaves(envs: seq<Env>, calls: seq<Call>, sched: seq<nat>)
    returns (solos: seq<State>, rs: seq<Names>)
    requires |envs| == |calls|
    requires forall i :: 0 <= i < |envs| ==> ValidEnv(envs[i]) && OwnJob(calls[i].body)
    requires ValidSchedule(sched, |envs|)
    ensures SoloStates(envs, calls, sched, solos) && |rs| == |envs|
    ensures var m := RunSchedule(Start(envs, calls), sched);
            && (forall i :: 0 <= i < |envs| ==>
                  && Same(rs[i], solos[i], View(m, i)) && SameLog(rs[i], solos[i].w, m.shared)
                  && (Done(View(m, i)) ==> solos[i].w == RunCall(envs[i], EMPTY_WORLD, NO_LOCALS, calls[i]).w))
            && Accounted(m.shared.primary, rs)
            && (forall i, k :: 0 <= i < |rs| && 0 <= k < |rs| && i != k ==> Disjoint(rs[i], rs[k]))
  {
    hide RunSchedule, OwnJob, SameLog, SameWorld, SameLocals, RunCall, Steps;
    solos, rs := ScheduleLogged(envs, calls, sched);
    var m := RunSchedule(Start(envs, calls), sched);
    forall i | 0 <= i < |envs| && Done(View(m, i))
      ensures solos[i].w == RunCall(envs[i], EMPTY_WORLD, NO_LOCALS, calls[i]).w
    {
      assert Same(rs[i], solos[i], View(m, i));
      FinishesAsInterpreted(envs[i], calls[i], Turns(sched, i));
    }
  }
}
