/**
  The Jack compiler's two-level symbol table (compiler/symboltable.go).
  `Tables` is the table as a value with the operations as functions; the
  class `SymbolTable` is the mutable table the compilation engine uses, each
  method proved to move its state as the functions say.
*/
module JackSymbols {
  import opened Common

  /** The four kinds of variable, each with its own index counter. */
  datatype Scope = ScopeStatic | ScopeField | ScopeArg | ScopeVar

  datatype Entry = Entry(name: string, typ: string, scope: Scope, index: nat)

  /** Static and field names live in the class scope, arguments and locals in the subroutine scope. */
  predicate IsClassScope(s: Scope) {
    s == ScopeStatic || s == ScopeField
  }

  datatype Tables = Tables(classScope: map<string, Entry>, localScope: map<string, Entry>, next: map<Scope, nat>)

  /** A fresh table; the counter map starts empty, so each counter reads 0. */
  const Empty: Tables := Tables(map[], map[], map[])

  /** The counter for a kind, 0 until the kind is first used. */
  function CounterOf(next: map<Scope, nat>, s: Scope): nat {
    if s in next then next[s] else 0
  }

  function Next(t: Tables, s: Scope): nat {
    CounterOf(t.next, s)
  }

  function TableFor(t: Tables, s: Scope): map<string, Entry> {
    if IsClassScope(s) then t.classScope else t.localScope
  }

  /** The table after Define(name, typ, s). */
  function Defined(t: Tables, name: string, typ: string, s: Scope): Tables {
    var e := Entry(name, typ, s, Next(t, s));
    var next := t.next[s := Next(t, s) + 1];
    if IsClassScope(s) then Tables(t.classScope[name := e], t.localScope, next)
    else Tables(t.classScope, t.localScope[name := e], next)
  }

  /** Define each name of the list in turn, all with the same type and kind. */
  function DefinedAll(t: Tables, names: seq<string>, typ: string, s: Scope): Tables
    decreases |names|
  {
    if names == [] then t else DefinedAll(Defined(t, names[0], typ, s), names[1..], typ, s)
  }

  /** Defining one more name at the end of the list is one more Define after the rest. */
  lemma {:induction false} DefinedAllSnoc(t: Tables, names: seq<string>, x: string, typ: string, s: Scope)
    ensures DefinedAll(t, names + [x], typ, s) == Defined(DefinedAll(t, names, typ, s), x, typ, s)
    decreases |names|
  {
    if names == [] {
      assert names + [x] == [x];
      assert [x][1..] == [];
    } else {
      assert (names + [x])[0] == names[0];
      assert (names + [x])[1..] == names[1..] + [x];
      DefinedAllSnoc(Defined(t, names[0], typ, s), names[1..], x, typ, s);
    }
  }

  function NamesOfScope(m: map<string, Entry>, s: Scope): set<string> {
    set k | k in m && m[k].scope == s
  }

  /** Count: the number of distinct names in the kind's table whose kind it is. */
  function CountOf(t: Tables, s: Scope): nat {
    |NamesOfScope(TableFor(t, s), s)|
  }

  /** Find: the subroutine scope first, then the class scope. */
  function Lookup(t: Tables, name: string): Option<Entry> {
    if name in t.localScope then Some(t.localScope[name])
    else if name in t.classScope then Some(t.classScope[name])
    else None
  }

  /** ResetLocalScope: only the subroutine map is emptied. */
  function Reset(t: Tables): Tables {
    Tables(t.classScope, map[], t.next)
  }

  // ---------------------------------------------------------------------------
  // Properties of the table operations

  /**
    Define stores the name in its kind's table with the kind's current counter
    as index, increments that counter only, and leaves every other name and
    the other table alone.
  */
  lemma {:induction false} DefineEffect(t: Tables, name: string, typ: string, s: Scope)
    ensures var u := Defined(t, name, typ, s);
      TableFor(u, s) == TableFor(t, s)[name := Entry(name, typ, s, Next(t, s))] &&
      Next(u, s) == Next(t, s) + 1 &&
      (forall s' :: s' != s ==> Next(u, s') == Next(t, s')) &&
      (IsClassScope(s) ==> u.localScope == t.localScope) &&
      (!IsClassScope(s) ==> u.classScope == t.classScope)
  {
  }

  /**
    Defining distinct names one after another in one kind gives them the
    consecutive indices Next, Next + 1, ...; the kind's counter ends n higher
    and the other kinds' counters do not move.
  */
  lemma {:induction false} DefinedAllIndices(t: Tables, names: seq<string>, typ: string, s: Scope)
    requires forall i, j :: 0 <= i < j < |names| ==> names[i] != names[j]
    ensures var u := DefinedAll(t, names, typ, s);
      Next(u, s) == Next(t, s) + |names| &&
      (forall s' :: s' != s ==> Next(u, s') == Next(t, s')) &&
      (forall i :: 0 <= i < |names| ==>
        names[i] in TableFor(u, s) && TableFor(u, s)[names[i]] == Entry(names[i], typ, s, Next(t, s) + i))
    decreases |names|
  {
    if names != [] {
      var t1 := Defined(t, names[0], typ, s);
      var rest := names[1..];
      DefinedAllIndices(t1, rest, typ, s);
      var u := DefinedAll(t1, rest, typ, s);
      forall i | 0 <= i < |names|
        ensures names[i] in TableFor(u, s) && TableFor(u, s)[names[i]] == Entry(names[i], typ, s, Next(t, s) + i)
      {
        if i == 0 {
          assert names[0] !in rest;
          DefinedAllKeeps(t1, rest, typ, s, names[0]);
        } else {
          assert names[i] == rest[i - 1];
        }
      }
    }
  }

  /** A name outside the list keeps its entry while the list is defined. */
  lemma {:induction false} DefinedAllKeeps(t: Tables, names: seq<string>, typ: string, s: Scope, other: string)
    requires other !in names
    ensures other in TableFor(t, s) ==>
      other in TableFor(DefinedAll(t, names, typ, s), s) &&
      TableFor(DefinedAll(t, names, typ, s), s)[other] == TableFor(t, s)[other]
    decreases |names|
  {
    if names != [] {
      assert other !in names[1..];
      DefinedAllKeeps(Defined(t, names[0], typ, s), names[1..], typ, s, other);
    }
  }

  /** Every kind counts independently from 0 in a fresh table. */
  lemma {:induction false} FreshCountersStartAtZero(names: seq<string>, typ: string, s: Scope)
    requires forall i, j :: 0 <= i < j < |names| ==> names[i] != names[j]
    ensures forall i :: 0 <= i < |names| ==>
      names[i] in TableFor(DefinedAll(Empty, names, typ, s), s) &&
      TableFor(DefinedAll(Empty, names, typ, s), s)[names[i]].index == i
  {
    DefinedAllIndices(Empty, names, typ, s);
  }

  /**
    Redefining a name in the same kind overwrites its entry with a new index:
    the second index is one more than the first and the first is gone.
  */
  lemma {:induction false} RedefineUsesFreshIndex(t: Tables, name: string, typ1: string, typ2: string, s: Scope)
    ensures var u := Defined(Defined(t, name, typ1, s), name, typ2, s);
      TableFor(u, s)[name] == Entry(name, typ2, s, Next(t, s) + 1) && Next(u, s) == Next(t, s) + 2
  {
  }

  /** A subroutine-scope name shadows a class-scope name of the same spelling. */
  lemma {:induction false} LocalShadowsClass(t: Tables, name: string)
    requires name in t.localScope && name in t.classScope
    ensures Lookup(t, name) == Some(t.localScope[name])
  {
  }

  /** Lookup finds exactly the names of the two tables, and nothing else. */
  lemma {:induction false} LookupDefined(t: Tables, name: string)
    ensures Lookup(t, name).Some? <==> (name in t.localScope || name in t.classScope)
    ensures Lookup(t, name).Some? && name !in t.localScope ==> Lookup(t, name).value == t.classScope[name]
  {
  }

  /**
    After ResetLocalScope only class names are found, and all four counters
    are unchanged, so argument and local indices keep growing.
  */
  lemma {:induction false} ResetKeepsCounters(t: Tables, name: string, s: Scope)
    ensures Next(Reset(t), s) == Next(t, s)
    ensures Lookup(Reset(t), name) == (if name in t.classScope then Some(t.classScope[name]) else None)
    ensures !IsClassScope(s) ==> CountOf(Reset(t), s) == 0
    ensures IsClassScope(s) ==> CountOf(Reset(t), s) == CountOf(t, s)
  {
    if !IsClassScope(s) {
      assert NamesOfScope(map[], s) == {};
    }
  }

  /**
    Count goes up by one on Define of a name not yet held with that kind, and
    stays put on an overwrite: so it can fall behind the number of Define calls.
  */
  lemma {:induction false} CountAfterDefine(t: Tables, name: string, typ: string, s: Scope)
    ensures var m := TableFor(t, s);
      CountOf(Defined(t, name, typ, s), s) == CountOf(t, s) + (if name in m && m[name].scope == s then 0 else 1)
  {
    var m := TableFor(t, s);
    var e := Entry(name, typ, s, Next(t, s));
    assert TableFor(Defined(t, name, typ, s), s) == m[name := e];
    NamesOfScopeUpdate(m, name, e, s);
    if name in m && m[name].scope == s {
      assert NamesOfScope(m, s) + {name} == NamesOfScope(m, s);
    } else {
      assert NamesOfScope(m, s) - {name} == NamesOfScope(m, s);
    }
  }

  lemma {:induction false} NamesOfScopeUpdate(m: map<string, Entry>, name: string, e: Entry, s: Scope)
    requires e.scope == s
    ensures NamesOfScope(m[name := e], s) == (NamesOfScope(m, s) - {name}) + {name}
  {
  }

  /**
    The invariant every reachable table keeps: each entry is filed under its
    own name in its kind's table, its index is below the kind's counter, and
    two names of one kind never share an index.
  */
  ghost predicate WellFormed(t: Tables) {
    TableOk(t.classScope, t.next, true) && TableOk(t.localScope, t.next, false)
  }

  /** One of the two maps is well formed; `cls` says whether it is the class map. */
  ghost predicate TableOk(m: map<string, Entry>, next: map<Scope, nat>, cls: bool) {
    (forall k :: k in m ==> m[k].name == k && IsClassScope(m[k].scope) == cls) &&
    (forall k :: k in m ==> m[k].index < CounterOf(next, m[k].scope)) &&
    UniqueIndices(m)
  }

  ghost predicate UniqueIndices(m: map<string, Entry>) {
    forall a, b :: a in m && b in m && a != b && m[a].scope == m[b].scope ==> m[a].index != m[b].index
  }

  lemma {:induction false} EmptyWellFormed()
    ensures WellFormed(Empty)
  {
  }

  /** Raising one counter keeps a map well formed. */
  lemma {:induction false} TableOkRaise(m: map<string, Entry>, next: map<Scope, nat>, cls: bool, s: Scope)
    requires TableOk(m, next, cls)
    ensures TableOk(m, next[s := CounterOf(next, s) + 1], cls)
  {
  }

  /** Filing a new entry with the kind's current counter keeps a map well formed. */
  lemma {:induction false} TableOkInsert(m: map<string, Entry>, next: map<Scope, nat>, cls: bool, e: Entry)
    requires TableOk(m, next, cls)
    requires IsClassScope(e.scope) == cls && e.index == CounterOf(next, e.scope)
    ensures TableOk(m[e.name := e], next[e.scope := e.index + 1], cls)
  {
    TableOkRaise(m, next, cls, e.scope);
  }

  lemma {:induction false} DefinePreservesWellFormed(t: Tables, name: string, typ: string, s: Scope)
    requires WellFormed(t)
    ensures WellFormed(Defined(t, name, typ, s))
  {
    var e := Entry(name, typ, s, Next(t, s));
    var next := t.next[s := e.index + 1];
    assert Next(t, s) == CounterOf(t.next, s);
    if IsClassScope(s) {
      TableOkInsert(t.classScope, t.next, true, e);
      TableOkRaise(t.localScope, t.next, false, s);
      assert Defined(t, name, typ, s) == Tables(t.classScope[name := e], t.localScope, next);
    } else {
      TableOkInsert(t.localScope, t.next, false, e);
      TableOkRaise(t.classScope, t.next, true, s);
      assert Defined(t, name, typ, s) == Tables(t.classScope, t.localScope[name := e], next);
    }
  }

  lemma {:induction false} ResetPreservesWellFormed(t: Tables)
    requires WellFormed(t)
    ensures WellFormed(Reset(t))
  {
  }

  /** In a well-formed table no kind holds more names than Define calls have drawn indices for it. */
  lemma {:induction false} CountBelowCounter(t: Tables, s: Scope)
    requires WellFormed(t)
    ensures CountOf(t, s) <= Next(t, s)
  {
    var m := TableFor(t, s);
    InjectiveBound(NamesOfScope(m, s), m, Next(t, s));
  }

  lemma {:induction false} InjectiveBound(names: set<string>, m: map<string, Entry>, n: nat)
    requires names <= m.Keys
    requires forall k :: k in names ==> m[k].index < n
    requires forall a, b :: a in names && b in names && a != b ==> m[a].index != m[b].index
    ensures |names| <= n
    decreases n
  {
    if names != {} {
      var k :| k in names;
      assert n > 0;
      var below := set x | x in names && m[x].index != n - 1;
      InjectiveBound(below, m, n - 1);
      var top := names - below;
      assert names == below + top && below !! top;
      if top != {} {
        var e :| e in top;
        forall x | x in top ensures x == e {
        }
        assert top == {e};
      }
    }
  }

  // ---------------------------------------------------------------------------
  // The table the compilation engine mutates

  /** One step of Count's loop: looking at one more key adds it to the counted names exactly when it qualifies. */
  lemma {:induction false} CountStep(counted: set<string>, seen: set<string>, k: string)
    requires k !in seen
    ensures |counted * (seen + {k})| == |counted * seen| + (if k in counted then 1 else 0)
  {
    if k in counted {
      assert counted * (seen + {k}) == counted * seen + {k};
    } else {
      assert counted * (seen + {k}) == counted * seen;
    }
  }

  /** Moving one key from the keys still to count to those counted keeps the partition and shrinks what is left. */
  lemma {:induction false} MoveKey(rest: set<string>, seen: set<string>, k: string)
    requires rest !! seen && k in rest
    ensures (rest - {k}) + (seen + {k}) == rest + seen && (rest - {k}) !! (seen + {k}) && |rest - {k}| < |rest|
  {
  }

  class SymbolTable {
    var classScope: map<string, Entry>
    var localScope: map<string, Entry>
    var nextIndex: map<Scope, nat>

    function State(): Tables
      reads this
    {
      Tables(classScope, localScope, nextIndex)
    }

    /** NewSymbolTable, with the counter map made empty rather than left nil. */
    constructor ()
      ensures State() == Empty
    {
      classScope := map[];
      localScope := map[];
      nextIndex := map[];
    }

    /** issueIndex: the kind's current counter, which is then incremented. */
    method IssueIndex(scope: Scope) returns (idx: nat)
      modifies this
      ensures idx == Next(old(State()), scope)
      ensures nextIndex == old(nextIndex)[scope := idx + 1]
      ensures classScope == old(classScope) && localScope == old(localScope)
    {
      idx := if scope in nextIndex then nextIndex[scope] else 0;
      nextIndex := nextIndex[scope := idx + 1];
    }

    /** getTableForScope: the class map for static and field, the subroutine map otherwise. */
    function GetTableForScope(scope: Scope): (m: map<string, Entry>)
      reads this
      ensures IsClassScope(scope) ==> m == classScope
      ensures !IsClassScope(scope) ==> m == localScope
    {
      match scope
      case ScopeStatic => classScope
      case ScopeField => classScope
      case ScopeArg => localScope
      case ScopeVar => localScope
    }

    method Define(name: string, typ: string, scope: Scope)
      modifies this
      ensures State() == Defined(old(State()), name, typ, scope)
    {
      var idx := IssueIndex(scope);
      var e := Entry(name, typ, scope, idx);
      if IsClassScope(scope) {
        classScope := classScope[name := e];
      } else {
        localScope := localScope[name := e];
      }
    }

    /** Count: a loop over the kind's table counting the entries of that kind. */
    method Count(scope: Scope) returns (count: nat)
      ensures count == CountOf(State(), scope)
    {
      var table := GetTableForScope(scope);
      ghost var counted := NamesOfScope(table, scope);
      count := 0;
      var rest := table.Keys;
      ghost var seen: set<string> := {};
      while rest != {}
        invariant rest + seen == table.Keys && rest !! seen
        invariant count == |counted * seen|
        decreases |rest|
      {
        var k :| k in rest;
        CountStep(counted, seen, k);
        if table[k].scope == scope {
          count := count + 1;
        }
        MoveKey(rest, seen, k);
        rest := rest - {k};
        seen := seen + {k};
      }
      assert counted * seen == counted;
    }

    function Find(name: string): (r: Option<Entry>)
      reads this
      ensures r == Lookup(State(), name)
    {
      if name in localScope then Some(localScope[name])
      else if name in classScope then Some(classScope[name])
      else None
    }

    method ResetLocalScope()
      modifies this
      ensures State() == Reset(old(State()))
    {
      localScope := map[];
    }
  }

  // ---------------------------------------------------------------------------
  // The counter map as written: NewSymbolTable never makes it

  /** A Go map value: nil until made. */
  datatype CounterMap = NilMap | MadeMap(m: map<Scope, nat>)

  /** The counters NewSymbolTable leaves behind: the zero value, a nil map. */
  function CountersAsWritten(): CounterMap {
    NilMap
  }

  /** issueIndex as written: reading a nil map gives 0, but incrementing an entry of it panics. */
  function IssueIndexAsWritten(c: CounterMap, s: Scope): (r: Option<(nat, CounterMap)>)
    ensures r.None? <==> c.NilMap?
  {
    match c
    case NilMap => None
    case MadeMap(m) =>
      var idx := if s in m then m[s] else 0;
      Some((idx, MadeMap(m[s := idx + 1])))
  }

  /** As written, the very first Define of any table fails, whatever its kind. */
  lemma {:induction false} FirstDefinePanicsAsWritten(s: Scope)
    ensures IssueIndexAsWritten(CountersAsWritten(), s).None?
  {
  }
}
