/** `Result.Scan`: ordered, type-checked writes of a result's values through possibly aliased pointers. */
module Results {
  import opened Options

  /** The kinds a pointer's target may not have, and one for all others. */
  datatype Kind = Chan | Func | Interface | UnsafePointer | Invalid | Settable(name: string)

  datatype GoType = GoType(kind: Kind, name: string)

  /** An `any` holding nil, or a value of a concrete type. */
  datatype Value = Nil | Value(typ: GoType, payload: int)

  datatype Result = Result(vals: seq<Value>)

  function NewResult(vals: seq<Value>): Result {
    Result(vals)
  }

  /** A variable that pointers can point to. */
  class Cell {
    const typ: GoType
    var val: Value

    constructor (typ: GoType, val: Value)
      ensures this.typ == typ && this.val == val
    {
      this.typ := typ;
      this.val := val;
    }
  }

  /** What a caller may pass: nil, something that is no pointer, a typed nil pointer, a pointer. */
  datatype Arg = NilArg | NonPointer(typ: GoType) | NilPointer(elem: GoType) | Pointer(cell: Cell)

  datatype ScanError =
    | InvalidSize(want: nat, got: nat)
    | NotAPointer(position: nat)
    | InvalidKind(position: nat, kind: Kind)
    | InvalidType(position: nat, valType: GoType, argType: GoType)
    | NotSettable(position: nat)

  predicate IsValidArgKind(k: Kind) {
    k.Settable?
  }

  function Elem(a: Arg): GoType
    requires a.NilPointer? || a.Pointer?
  {
    if a.Pointer? then a.cell.typ else a.elem
  }

  // ----- Acceptance: types and nilness only -----

  /** Position i takes part in the scan without complaint. */
  predicate Acceptable(v: Value, a: Arg) {
    || a.NilArg?
    || (!a.NonPointer? && (v.Nil? || (a.Pointer? && IsValidArgKind(a.cell.typ.kind) && a.cell.typ == v.typ)))
  }

  predicate Accepted(vals: seq<Value>, args: seq<Arg>) {
    |vals| == |args| && forall i :: 0 <= i < |vals| ==> Acceptable(vals[i], args[i])
  }

  /** The first position that is not acceptable. */
  ghost predicate FirstBad(vals: seq<Value>, args: seq<Arg>, i: int) {
    && 0 <= i < |vals| == |args|
    && !Acceptable(vals[i], args[i])
    && forall j :: 0 <= j < i ==> Acceptable(vals[j], args[j])
  }

  /** What is wrong with position i. */
  ghost predicate Explains(err: ScanError, vals: seq<Value>, args: seq<Arg>, i: nat)
    requires i < |vals| == |args|
  {
    match err
    case InvalidSize(_, _) => false
    case NotAPointer(p) => p == i && args[i].NonPointer?
    case InvalidKind(p, k) =>
      p == i && !args[i].NilArg? && !args[i].NonPointer? && k == Elem(args[i]).kind && !IsValidArgKind(k)
    case InvalidType(p, valType, argType) =>
      && p == i && !args[i].NilArg? && !args[i].NonPointer? && vals[i].Value?
      && valType == vals[i].typ && argType == Elem(args[i]) && IsValidArgKind(argType.kind) && valType != argType
    case NotSettable(p) =>
      && p == i && args[i].NilPointer? && vals[i].Value?
      && args[i].elem == vals[i].typ && IsValidArgKind(args[i].elem.kind)
  }

  // ----- Contents: the last store wins -----

  /** Position j writes its value to c. */
  predicate Stores(vals: seq<Value>, args: seq<Arg>, j: nat, c: Cell)
    requires j < |vals| && j < |args|
  {
    args[j].Pointer? && args[j].cell == c && vals[j].Value?
  }

  /** j is the last of the first n positions that writes to c. */
  ghost predicate LastStore(vals: seq<Value>, args: seq<Arg>, n: nat, c: Cell, j: nat)
    requires n <= |vals| && n <= |args|
  {
    j < n && Stores(vals, args, j, c) && forall k: nat :: j < k < n ==> !Stores(vals, args, k, c)
  }

  /** What c holds after the first n positions were scanned. */
  ghost predicate HoldsLast(vals: seq<Value>, args: seq<Arg>, n: nat, c: Cell, before: Value, after: Value)
    requires n <= |vals| && n <= |args|
  {
    || (exists j: nat :: LastStore(vals, args, n, c, j) && after == vals[j])
    || ((forall j: nat :: j < n ==> !Stores(vals, args, j, c)) && after == before)
  }

  function Targets(args: seq<Arg>): set<Cell> {
    set i | 0 <= i < |args| && args[i].Pointer? :: args[i].cell
  }

  /** What a variable of c's type may hold after a scan: what it held before it, or a value of its type. */
  predicate KeepsType(c: Cell, before: Value, after: Value) {
    after == before || (after.Value? && after.typ == c.typ)
  }

  /** Storing acceptable values never breaks typing. */
  lemma StoresKeepTypes(vals: seq<Value>, args: seq<Arg>, n: nat)
    requires n <= |vals| == |args|
    requires forall j :: 0 <= j < n ==> Acceptable(vals[j], args[j])
    ensures forall c, before, after :: HoldsLast(vals, args, n, c, before, after) ==> KeepsType(c, before, after)
  {
    forall c, before, after | HoldsLast(vals, args, n, c, before, after) ensures KeepsType(c, before, after) {
      if j: nat :| LastStore(vals, args, n, c, j) && after == vals[j] {
        assert Acceptable(vals[j], args[j]);
      }
    }
  }

  /** Scans exactly when acceptable; otherwise stops at the first bad position, having stored what stood
      before it and touched nothing else; with the wrong number of arguments nothing is stored. Whether it scans
      or fails, no variable gets a value of another type. */
  method Scan(r: Result, args: seq<Arg>) returns (err: Option<ScanError>)
    modifies Targets(args)
    ensures err.None? <==> Accepted(r.vals, args)
    ensures |r.vals| != |args| ==>
              && err == Some(InvalidSize(|r.vals|, |args|))
              && forall c | c in Targets(args) :: c.val == old(c.val)
    ensures err.None? ==>
              forall c | c in Targets(args) :: HoldsLast(r.vals, args, |args|, c, old(c.val), c.val)
    ensures err.Some? && |r.vals| == |args| ==>
              exists i: nat :: FirstBad(r.vals, args, i)
                && Explains(err.value, r.vals, args, i)
                && forall c | c in Targets(args) :: HoldsLast(r.vals, args, i, c, old(c.val), c.val)
    ensures forall c | c in Targets(args) :: KeepsType(c, old(c.val), c.val)
  {
    var vals := r.vals;
    if |vals| != |args| {
      return Some(InvalidSize(|vals|, |args|));
    }
    var i := 0;
    while i < |vals|
      invariant 0 <= i <= |vals|
      invariant forall j :: 0 <= j < i ==> Acceptable(vals[j], args[j])
      invariant forall c | c in Targets(args) :: HoldsLast(vals, args, i, c, old(c.val), c.val)
    {
      StoresKeepTypes(vals, args, i);
      var arg := args[i];
      if arg.NilArg? {
        SkipKeeps(vals, args, i);
        i := i + 1;
        continue;
      }
      if arg.NonPointer? {
        assert FirstBad(vals, args, i);
        return Some(NotAPointer(i));
      }
      var argType := Elem(arg);
      if vals[i].Nil? {
        SkipKeeps(vals, args, i);
        i := i + 1;
        continue;
      }
      if !IsValidArgKind(argType.kind) {
        assert FirstBad(vals, args, i);
        return Some(InvalidKind(i, argType.kind));
      }
      if argType != vals[i].typ {
        assert FirstBad(vals, args, i);
        return Some(InvalidType(i, vals[i].typ, argType));
      }
      if arg.NilPointer? {
        assert FirstBad(vals, args, i);
        return Some(NotSettable(i));
      }
      arg.cell.val := vals[i];
      StoreOverrides(vals, args, i);
      i := i + 1;
    }
    StoresKeepTypes(vals, args, i);
    return None;
  }

  lemma SkipKeeps(vals: seq<Value>, args: seq<Arg>, i: nat)
    requires i < |vals| == |args|
    requires forall c :: c in Targets(args) ==> !Stores(vals, args, i, c)
    ensures forall c, before, after :: c in Targets(args) && HoldsLast(vals, args, i, c, before, after) ==>
              HoldsLast(vals, args, i + 1, c, before, after)
  {
    forall c, before, after | c in Targets(args) && HoldsLast(vals, args, i, c, before, after)
      ensures HoldsLast(vals, args, i + 1, c, before, after)
    {
      if j: nat :| LastStore(vals, args, i, c, j) && after == vals[j] {
        assert LastStore(vals, args, i + 1, c, j);
      }
    }
  }

  lemma StoreOverrides(vals: seq<Value>, args: seq<Arg>, i: nat)
    requires i < |vals| == |args| && args[i].Pointer? && vals[i].Value?
    ensures LastStore(vals, args, i + 1, args[i].cell, i)
    ensures forall c, before, after ::
              c in Targets(args) && c != args[i].cell && HoldsLast(vals, args, i, c, before, after) ==>
              HoldsLast(vals, args, i + 1, c, before, after)
  {
    assert LastStore(vals, args, i + 1, args[i].cell, i);
    forall c, before, after | c in Targets(args) && c != args[i].cell && HoldsLast(vals, args, i, c, before, after)
      ensures HoldsLast(vals, args, i + 1, c, before, after)
    {
      if j: nat :| LastStore(vals, args, i, c, j) && after == vals[j] {
        assert LastStore(vals, args, i + 1, c, j);
      }
    }
  }

  // ----- What follows -----

  /** The characterisation leaves no choice: the contents of a cell are a function of what it held before. */
  lemma ContentsDetermined(vals: seq<Value>, args: seq<Arg>, n: nat, c: Cell,
                           before: Value, after: Value, after': Value)
    requires n <= |vals| && n <= |args|
    requires HoldsLast(vals, args, n, c, before, after) && HoldsLast(vals, args, n, c, before, after')
    ensures after == after'
  {
    if j: nat :| LastStore(vals, args, n, c, j) && after == vals[j] {
      var k: nat :| LastStore(vals, args, n, c, k) && after' == vals[k];
      assert j == k;
    }
  }

  /** Scanning a second time changes nothing. */
  lemma ScanTwice(vals: seq<Value>, args: seq<Arg>, n: nat, c: Cell, before: Value, once: Value, twice: Value)
    requires n <= |vals| && n <= |args|
    requires HoldsLast(vals, args, n, c, before, once) && HoldsLast(vals, args, n, c, once, twice)
    ensures twice == once
  {
    if j: nat :| LastStore(vals, args, n, c, j) && once == vals[j] {
      var k: nat :| LastStore(vals, args, n, c, k) && twice == vals[k];
      assert j == k;
    }
  }

  /** What may be scanned, said of types and kinds alone. */
  predicate Fits(v: Value, a: Arg) {
    match a
    case NilArg => true
    case NonPointer(_) => false
    case NilPointer(_) => v.Nil?
    case Pointer(c) => v.Nil? || (v.typ == c.typ && SettableKind(c.typ.kind))
  }

  predicate SettableKind(k: Kind) {
    k != Chan && k != Func && k != Interface && k != UnsafePointer && k != Invalid
  }

  /** A scan is accepted exactly if each position is: a nil argument always; a nil value by any pointer; any other
      value by a pointer to a variable of its type, of any kind but channel, function, interface, unsafe pointer
      and invalid. */
  lemma AcceptedExactly(vals: seq<Value>, args: seq<Arg>)
    ensures Accepted(vals, args) <==> |vals| == |args| && forall i :: 0 <= i < |vals| ==> Fits(vals[i], args[i])
  {
    forall i | 0 <= i < |vals| && |vals| == |args| ensures Acceptable(vals[i], args[i]) <==> Fits(vals[i], args[i]) {
    }
  }

  /** And a failing scan says what is wrong with the first bad position, checked in this order: no pointer; a kind
      that cannot be set; another type; a nil pointer. */
  lemma FailureExplained(err: ScanError, vals: seq<Value>, args: seq<Arg>, i: nat)
    requires FirstBad(vals, args, i) && Explains(err, vals, args, i)
    ensures !Fits(vals[i], args[i]) && forall j :: 0 <= j < i ==> Fits(vals[j], args[j])
    ensures
      match args[i]
      case NilArg => false
      case NonPointer(_) => err == NotAPointer(i)
      case NilPointer(t) =>
        err == (if !SettableKind(t.kind) then InvalidKind(i, t.kind)
                else if vals[i].typ != t then InvalidType(i, vals[i].typ, t)
                else NotSettable(i))
      case Pointer(c) =>
        err == if !SettableKind(c.typ.kind) then InvalidKind(i, c.typ.kind) else InvalidType(i, vals[i].typ, c.typ)
  {
    forall j | 0 <= j <= i ensures Acceptable(vals[j], args[j]) <==> Fits(vals[j], args[j]) {
    }
  }

  /** With pairwise different targets, no nils, and values of the targets' types, every variable gets back the value
      put in for it. */
  lemma RoundTrip(vals: seq<Value>, args: seq<Arg>, i: nat, before: Value, after: Value)
    requires |vals| == |args|
    requires forall j :: 0 <= j < |args| ==> args[j].Pointer? && vals[j].Value?
    requires forall j :: 0 <= j < |args| ==> args[j].cell.typ == vals[j].typ && SettableKind(vals[j].typ.kind)
    requires forall j, k :: 0 <= j < k < |args| ==> args[j].cell != args[k].cell
    ensures Accepted(NewResult(vals).vals, args)
    ensures i < |args| && HoldsLast(NewResult(vals).vals, args, |args|, args[i].cell, before, after) ==>
              after == vals[i] && after.typ == args[i].cell.typ
  {
    AcceptedExactly(vals, args);
    if i < |args| && HoldsLast(NewResult(vals).vals, args, |args|, args[i].cell, before, after) {
      assert Stores(vals, args, i, args[i].cell);
      var j: nat :| LastStore(vals, args, |args|, args[i].cell, j) && after == vals[j];
      assert j == i;
    }
  }

  /** A scan that fails at position i leaves what a scan of the positions before it alone would: that scan
      succeeds, and stores the same. */
  lemma FailureIsPrefixScan(vals: seq<Value>, args: seq<Arg>, i: nat, c: Cell, before: Value, after: Value)
    requires FirstBad(vals, args, i)
    ensures Accepted(vals[..i], args[..i])
    ensures HoldsLast(vals, args, i, c, before, after) <==> HoldsLast(vals[..i], args[..i], i, c, before, after)
  {
    forall j: nat | j < i ensures Stores(vals, args, j, c) == Stores(vals[..i], args[..i], j, c) {
    }
    forall j: nat ensures LastStore(vals, args, i, c, j) == LastStore(vals[..i], args[..i], i, c, j) {
    }
  }
}
