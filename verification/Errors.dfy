/** Go error trees, `errors.Is` / `errors.As` as preorder searches over them, and the retrier's classification. */
module Errors {
  import opened Options

  /** What one node of an error tree is, beyond the errors it unwraps to. Wrappers that only quote another
      error in their text (`%v`, `%s`) carry it inside the kind, where no search looks. */
  datatype Kind =
    | Canceled
    | DeadlineExceeded
    | EOF
    | ClosedPipe
    | NetError(timeout: bool)
    | PgError(code: string)
    | InvalidContext
    | BeginTx
    | CommitTx
    | RollbackTx(quoted: Error)
    | Retry
    | Panic(value: PanicValue)
    | Custom(text: string)

  /** A node and what its `Unwrap` yields: nothing, one error, or the list of a joined error. */
  datatype Error = Error(kind: Kind, wrapped: seq<Error>)

  datatype PanicValue = PanicError(err: Error) | PanicText(text: string)

  const INVALID_CONTEXT := Error(InvalidContext, [])

  // ----- errors.Is and errors.As -----

  /** Depth-first search for the first node that satisfies p, the node before its children. */
  function Find(e: Error, p: Kind -> bool): (r: Option<Kind>)
    ensures r.Some? ==> p(r.value)
    decreases e, 0
  {
    if p(e.kind) then Some(e.kind) else FindAny(e.wrapped, p)
  }

  function FindAny(es: seq<Error>, p: Kind -> bool): (r: Option<Kind>)
    ensures r.Some? ==> p(r.value)
    decreases es
  {
    if es == [] then None
    else
      var first := Find(es[0], p);
      if first.Some? then first else FindAny(es[1..], p)
  }

  predicate Is(e: Error, target: Kind) {
    Find(e, k => k == target).Some?
  }

  /** `net.Error` is an interface: context.DeadlineExceeded implements it too, and reports a timeout. */
  predicate IsNet(k: Kind) {
    k.NetError? || k.DeadlineExceeded?
  }

  predicate TimedOut(k: Kind) {
    k.DeadlineExceeded? || (k.NetError? && k.timeout)
  }

  predicate IsPg(k: Kind) {
    k.PgError?
  }

  const RETRYABLE_CODES: set<string> := {"08000", "08003", "08006", "40001", "40P01", "55P03"}

  predicate NeedRetry(e: Error) {
    if Is(e, Canceled) || Is(e, DeadlineExceeded) then false
    else if Is(e, EOF) || Is(e, ClosedPipe) then true
    else
      var net := Find(e, IsNet);
      if net.Some? && TimedOut(net.value) then true
      else
        var pg := Find(e, IsPg);
        pg.Some? && pg.value.code in RETRYABLE_CODES
  }

  // ----- The same classification, read off the flattened tree -----

  function Preorder(e: Error): (ks: seq<Kind>)
    ensures |ks| > 0
    decreases e, 0
  {
    [e.kind] + PreorderAll(e.wrapped)
  }

  function PreorderAll(es: seq<Error>): seq<Kind>
    decreases es
  {
    if es == [] then [] else Preorder(es[0]) + PreorderAll(es[1..])
  }

  ghost predicate Occurs(ks: seq<Kind>, k: Kind) {
    exists i :: 0 <= i < |ks| && ks[i] == k
  }

  /** Position i holds the first element of ks that satisfies p. */
  ghost predicate FirstAt(ks: seq<Kind>, p: Kind -> bool, i: int) {
    0 <= i < |ks| && p(ks[i]) && forall j :: 0 <= j < i ==> !p(ks[j])
  }

  ghost predicate FirstNetAt(ks: seq<Kind>, i: int) {
    0 <= i < |ks| && ks[i].NetError? && forall j :: 0 <= j < i ==> !ks[j].NetError?
  }

  ghost predicate FirstPgAt(ks: seq<Kind>, i: int) {
    0 <= i < |ks| && ks[i].PgError? && forall j :: 0 <= j < i ==> !ks[j].PgError?
  }

  /** Connection failures, serialization failure, deadlock, lock not available. */
  predicate Transient(code: string) {
    || code == "08000" || code == "08003" || code == "08006"
    || code == "40001" || code == "40P01" || code == "55P03"
  }

  ghost predicate RetryableList(ks: seq<Kind>) {
    && !Occurs(ks, Canceled)
    && !Occurs(ks, DeadlineExceeded)
    && (|| Occurs(ks, EOF)
        || Occurs(ks, ClosedPipe)
        || (exists i :: FirstNetAt(ks, i) && ks[i].timeout)
        || (exists i :: FirstPgAt(ks, i) && Transient(ks[i].code)))
  }

  /** The search returns what the flattened list's first match is, and nothing when there is no match. */
  ghost predicate SearchAgrees(found: Option<Kind>, ks: seq<Kind>, p: Kind -> bool) {
    match found
    case Some(k) => exists i :: FirstAt(ks, p, i) && ks[i] == k
    case None => forall i :: 0 <= i < |ks| ==> !p(ks[i])
  }

  lemma {:induction false} FindIsFirst(e: Error, p: Kind -> bool)
    ensures SearchAgrees(Find(e, p), Preorder(e), p)
    decreases e, 0
  {
    var rest := PreorderAll(e.wrapped);
    FindAnyIsFirst(e.wrapped, p);
    if p(e.kind) {
      assert FirstAt(Preorder(e), p, 0);
    } else {
      SearchAppend([e.kind], None, rest, FindAny(e.wrapped, p), p);
    }
  }

  lemma {:induction false} FindAnyIsFirst(es: seq<Error>, p: Kind -> bool)
    ensures SearchAgrees(FindAny(es, p), PreorderAll(es), p)
    decreases es
  {
    if es == [] {
    } else {
      FindIsFirst(es[0], p);
      FindAnyIsFirst(es[1..], p);
      SearchAppend(Preorder(es[0]), Find(es[0], p), PreorderAll(es[1..]), FindAny(es[1..], p), p);
    }
  }

  lemma SearchAppend(xs: seq<Kind>, inXs: Option<Kind>, ys: seq<Kind>, inYs: Option<Kind>, p: Kind -> bool)
    requires SearchAgrees(inXs, xs, p) && SearchAgrees(inYs, ys, p)
    ensures SearchAgrees(if inXs.Some? then inXs else inYs, xs + ys, p)
  {
    if inXs.Some? {
      var i :| FirstAt(xs, p, i) && xs[i] == inXs.value;
      assert FirstAt(xs + ys, p, i);
    } else if inYs.Some? {
      var i :| FirstAt(ys, p, i) && ys[i] == inYs.value;
      assert FirstAt(xs + ys, p, |xs| + i);
    }
  }

  /** The kind stands somewhere in the tree. */
  predicate Holds(e: Error, k: Kind) {
    e.kind == k || exists i :: 0 <= i < |e.wrapped| && Holds(e.wrapped[i], k)
  }

  /** The flattened list holds just what the tree holds. */
  lemma {:induction false} OccursAnywhere(e: Error, k: Kind)
    ensures Occurs(Preorder(e), k) <==> Holds(e, k)
    decreases e, 0
  {
    AnyOccurs(e.wrapped, k);
    OccursAppend([e.kind], PreorderAll(e.wrapped), k);
    assert Occurs([e.kind], k) <==> e.kind == k by {
      assert [e.kind][0] == e.kind;
    }
  }

  lemma {:induction false} AnyOccurs(es: seq<Error>, k: Kind)
    ensures Occurs(PreorderAll(es), k) <==> exists i :: 0 <= i < |es| && Holds(es[i], k)
    decreases es
  {
    if es == [] {
    } else {
      OccursAnywhere(es[0], k);
      AnyOccurs(es[1..], k);
      OccursAppend(Preorder(es[0]), PreorderAll(es[1..]), k);
      if i :| 0 <= i < |es| && Holds(es[i], k) {
        assert i > 0 ==> es[1..][i - 1] == es[i];
      }
      if i :| 0 <= i < |es| - 1 && Holds(es[1..][i], k) {
        assert es[i + 1] == es[1..][i];
      }
    }
  }

  lemma OccursAppend(xs: seq<Kind>, ys: seq<Kind>, k: Kind)
    ensures Occurs(xs + ys, k) <==> Occurs(xs, k) || Occurs(ys, k)
  {
    if i :| 0 <= i < |xs| && xs[i] == k {
      assert (xs + ys)[i] == k;
    }
    if i :| 0 <= i < |ys| && ys[i] == k {
      assert (xs + ys)[|xs| + i] == k;
    }
  }

  lemma IsOccurs(e: Error, target: Kind)
    ensures Is(e, target) <==> Occurs(Preorder(e), target)
  {
    FindIsFirst(e, k => k == target);
  }

  /** Recursive search over the tree decides exactly what the flattened list says. */
  lemma NeedRetryIsListPredicate(e: Error)
    ensures NeedRetry(e) <==> RetryableList(Preorder(e))
  {
    var ks := Preorder(e);
    IsOccurs(e, Canceled);
    IsOccurs(e, DeadlineExceeded);
    IsOccurs(e, EOF);
    IsOccurs(e, ClosedPipe);
    FindIsFirst(e, IsNet);
    FindIsFirst(e, IsPg);
    var net, pg := Find(e, IsNet), Find(e, IsPg);
    if net.Some? {
      var n :| FirstAt(ks, IsNet, n) && ks[n] == net.value;
      assert !Occurs(ks, DeadlineExceeded) ==> FirstNetAt(ks, n);
    }
    if pg.Some? {
      var n :| FirstAt(ks, IsPg, n) && ks[n] == pg.value;
      assert FirstPgAt(ks, n);
    }
  }

  /** A cancellation anywhere in the tree forbids a retry, whatever else the tree holds. */
  lemma CancellationWins(e: Error)
    requires Holds(e, Canceled) || Holds(e, DeadlineExceeded)
    ensures !NeedRetry(e)
  {
    OccursAnywhere(e, Canceled);
    OccursAnywhere(e, DeadlineExceeded);
    NeedRetryIsListPredicate(e);
  }

  /** Without one, a lost connection anywhere demands it. */
  lemma LostConnectionRetried(e: Error)
    requires Holds(e, EOF) || Holds(e, ClosedPipe)
    ensures NeedRetry(e) <==> !Holds(e, Canceled) && !Holds(e, DeadlineExceeded)
  {
    OccursAnywhere(e, Canceled);
    OccursAnywhere(e, DeadlineExceeded);
    OccursAnywhere(e, EOF);
    OccursAnywhere(e, ClosedPipe);
    NeedRetryIsListPredicate(e);
  }

  /** No node of the trees es is of a kind p holds of. */
  ghost predicate Without(es: seq<Error>, p: Kind -> bool) {
    forall i :: 0 <= i < |PreorderAll(es)| ==> !p(PreorderAll(es)[i])
  }

  /** Ends the classification wherever it is found. */
  predicate IsDecisive(k: Kind) {
    k.Canceled? || k.DeadlineExceeded? || k.EOF? || k.ClosedPipe?
  }

  ghost predicate Has(e: Error, p: Kind -> bool) {
    exists i :: 0 <= i < |Preorder(e)| && p(Preorder(e)[i])
  }

  /** What is joined after a is not seen by a search that a answers, or that they cannot. */
  lemma JoinedSearch(k: Kind, a: Error, es: seq<Error>, p: Kind -> bool)
    requires !p(k) && (Has(a, p) || Without(es, p))
    ensures Find(Error(k, [a] + es), p) == Find(a, p)
  {
    FindIsFirst(a, p);
    FindAnyIsFirst(es, p);
    assert ([a] + es)[1..] == es;
    assert FindAny([a] + es, p) == if Find(a, p).Some? then Find(a, p) else FindAny(es, p);
  }

  /** First match, not any match, decides: trees joined after a count for nothing, as long as they hold nothing
      decisive, no network error unless a has one, and no Postgres error unless a has one. */
  lemma FirstOfEachKindDecides(k: Kind, a: Error, es: seq<Error>)
    requires IsWrapper(k)
    requires Without(es, IsDecisive)
    requires Has(a, IsNet) || Without(es, IsNet)
    requires Has(a, IsPg) || Without(es, IsPg)
    ensures NeedRetry(Error(k, [a] + es)) <==> NeedRetry(a)
  {
    hide Preorder, PreorderAll, Find, Has;
    JoinedSearch(k, a, es, x => x == Canceled);
    JoinedSearch(k, a, es, x => x == DeadlineExceeded);
    JoinedSearch(k, a, es, x => x == EOF);
    JoinedSearch(k, a, es, x => x == ClosedPipe);
    JoinedSearch(k, a, es, IsNet);
    JoinedSearch(k, a, es, IsPg);
  }

  lemma BareErrors(timeout: bool, code: string)
    ensures NeedRetry(Error(NetError(timeout), [])) <==> timeout
    ensures NeedRetry(Error(PgError(code), [])) <==> Transient(code)
    ensures Has(Error(NetError(timeout), []), IsNet) && Has(Error(PgError(code), []), IsPg)
  {
    hide NeedRetry, Transient;
    var net, pg := Error(NetError(timeout), []), Error(PgError(code), []);
    NeedRetryIsListPredicate(net);
    NeedRetryIsListPredicate(pg);
    assert Preorder(net) == [NetError(timeout)] && Preorder(pg) == [PgError(code)];
    assert FirstNetAt(Preorder(net), 0) && FirstPgAt(Preorder(pg), 0);
    assert IsNet(Preorder(net)[0]) && IsPg(Preorder(pg)[0]);
  }

  /** So a network error that comes first is judged by its own timeout, however many that did time out follow. */
  lemma FirstNetErrorDecides(first: bool, es: seq<Error>)
    requires Without(es, IsDecisive) && Without(es, IsPg)
    ensures NeedRetry(Error(Custom("join"), [Error(NetError(first), [])] + es)) <==> first
  {
    hide NeedRetry, Has, Without;
    BareErrors(first, "");
    FirstOfEachKindDecides(Custom("join"), Error(NetError(first), []), es);
  }

  /** Likewise a Postgres error by its own code. */
  lemma FirstPgErrorDecides(first: string, es: seq<Error>)
    requires Without(es, IsDecisive) && Without(es, IsNet)
    ensures NeedRetry(Error(Custom("join"), [Error(PgError(first), [])] + es)) <==> Transient(first)
  {
    hide NeedRetry, Has, Without, Transient;
    BareErrors(false, first);
    FirstOfEachKindDecides(Custom("join"), Error(PgError(first), []), es);
  }

  // ----- Wrapping -----

  /** `fmt.Errorf("...: %w", e)`: one more node above e. */
  function Wrap(k: Kind, e: Error): Error {
    Error(k, [e])
  }

  /** The kinds this library, or a job adding context, puts above an error. */
  predicate IsWrapper(k: Kind) {
    k.BeginTx? || k.CommitTx? || k.RollbackTx? || k.Retry? || k.Custom?
  }

  function WrapAll(ks: seq<Kind>, e: Error): Error {
    if ks == [] then e else Wrap(ks[0], WrapAll(ks[1..], e))
  }

  lemma WrapKeepsSearch(k: Kind, e: Error, p: Kind -> bool)
    requires !p(k)
    ensures Find(Wrap(k, e), p) == Find(e, p)
  {
    assert FindAny([e], p) == Find(e, p) by {
      assert [e][1..] == [];
    }
  }

  lemma WrapKeepsNeedRetry(k: Kind, e: Error)
    requires IsWrapper(k)
    ensures NeedRetry(Wrap(k, e)) == NeedRetry(e)
  {
    WrapKeepsSearch(k, e, x => x == Canceled);
    WrapKeepsSearch(k, e, x => x == DeadlineExceeded);
    WrapKeepsSearch(k, e, x => x == EOF);
    WrapKeepsSearch(k, e, x => x == ClosedPipe);
    WrapKeepsSearch(k, e, IsNet);
    WrapKeepsSearch(k, e, IsPg);
  }

  /** Any stack of wrappers leaves the classification alone. A failed rollback is such a wrapper, and the
      error it quotes can be of any kind. */
  lemma {:induction false} WrappingKeepsNeedRetry(ks: seq<Kind>, e: Error)
    requires forall k | k in ks :: IsWrapper(k)
    ensures NeedRetry(WrapAll(ks, e)) == NeedRetry(e)
  {
    if ks == [] {
    } else {
      WrappingKeepsNeedRetry(ks[1..], e);
      WrapKeepsNeedRetry(ks[0], WrapAll(ks[1..], e));
    }
  }

  /** A recovered panic is never retried, even when the value was itself a retryable error. */
  lemma PanicNeverRetried(v: PanicValue, ks: seq<Kind>)
    requires forall k | k in ks :: IsWrapper(k)
    ensures !NeedRetry(WrapAll(ks, Error(Panic(v), [])))
  {
    var e := Error(Panic(v), []);
    WrappingKeepsNeedRetry(ks, e);
    NeedRetryIsListPredicate(e);
    assert Preorder(e) == [Panic(v)];
  }
}
