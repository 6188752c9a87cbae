/**
  Properties of the code the Jack compilation engine emits, proved about the
  reference compiler of JackCodegen (which the engine's methods are proved
  to follow): labels drawn by genLabel are never repeated and every jump
  lands on a label of the same code, the local count written after
  `function` is the number of names declared by `var` lines, parameters
  become arguments in order, and nFields as compileClass sums it.
*/
module JackProperties {
  import opened Common
  import opened Text
  import opened JackVM
  import opened JackSymbols
  import opened JackSyntax
  import opened JackCodegen

  // ---------------------------------------------------------------------------
  // Labels and jumps

  /** Code that defines no label and jumps nowhere. */
  predicate NoFlow(c: seq<VmOp>) {
    forall i :: 0 <= i < |c| ==> !c[i].Label? && !c[i].Goto? && !c[i].IfGoto?
  }

  /** A label drawn by genLabel with a counter value in K. */
  ghost predicate Drawn(l: string, K: set<nat>) {
    exists p: string, k: nat :: k in K && l == LabelText(p, k)
  }

  /** Every label the code defines was drawn with a counter in K, and no label is defined twice. */
  ghost predicate LabelsIn(c: seq<VmOp>, K: set<nat>) {
    (forall i :: 0 <= i < |c| && c[i].Label? ==> Drawn(c[i].name, K)) &&
    (forall i, j :: 0 <= i < j < |c| && c[i].Label? && c[j].Label? ==> c[i].name != c[j].name)
  }

  /** The labels the code defines. */
  function LabelSet(c: seq<VmOp>): set<string> {
    set i | 0 <= i < |c| && c[i].Label? :: c[i].name
  }

  /** Every goto and if-goto of the code names a label in L. */
  predicate JumpsIn(c: seq<VmOp>, L: set<string>) {
    forall i :: 0 <= i < |c| && (c[i].Goto? || c[i].IfGoto?) ==> c[i].name in L
  }

  /** The counter values lo .. hi - 1. */
  function Range(lo: nat, hi: nat): set<nat>
    decreases hi
  {
    if hi <= lo then {} else Range(lo, hi - 1) + {hi - 1}
  }

  lemma {:induction false} RangeMember(lo: nat, hi: nat, k: nat)
    ensures k in Range(lo, hi) <==> lo <= k < hi
    decreases hi
  {
    if lo < hi {
      RangeMember(lo, hi - 1, k);
    }
  }

  /** Consecutive ranges are disjoint and together make the range from the first start to the last end. */
  lemma {:induction false} RangeSplit(n0: nat, n1: nat, n2: nat)
    requires n0 <= n1 <= n2
    ensures Range(n0, n1) !! Range(n1, n2) && Range(n0, n1) + Range(n1, n2) == Range(n0, n2)
  {
    forall k: nat
      ensures (k in Range(n0, n1) + Range(n1, n2) <==> k in Range(n0, n2)) && !(k in Range(n0, n1) && k in Range(n1, n2))
    {
      RangeMember(n0, n1, k);
      RangeMember(n1, n2, k);
      RangeMember(n0, n2, k);
    }
  }

  /** Code with labels drawn from the counter values lo .. hi - 1, each defined once, that jumps only to its own labels. */
  ghost predicate Closed(c: seq<VmOp>, lo: nat, hi: nat) {
    lo <= hi && LabelsIn(c, Range(lo, hi)) && JumpsIn(c, LabelSet(c))
  }

  lemma {:induction false} NoFlowConcat(a: seq<VmOp>, b: seq<VmOp>)
    requires NoFlow(a) && NoFlow(b)
    ensures NoFlow(a + b)
  {
    assert forall i :: |a| <= i < |a + b| ==> (a + b)[i] == b[i - |a|];
  }

  lemma {:induction false} NoFlowNeutral(c: seq<VmOp>, K: set<nat>, L: set<string>)
    requires NoFlow(c)
    ensures LabelsIn(c, K) && JumpsIn(c, L) && LabelSet(c) == {}
  {
  }

  /** Labels drawn from disjoint counter sets never clash, so two such runs of code can be put side by side. */
  lemma {:induction false} LabelsConcat(a: seq<VmOp>, b: seq<VmOp>, A: set<nat>, B: set<nat>)
    requires LabelsIn(a, A) && LabelsIn(b, B) && A !! B
    ensures LabelsIn(a + b, A + B)
  {
    var c := a + b;
    forall i | 0 <= i < |c| && c[i].Label?
      ensures Drawn(c[i].name, A + B)
    {
      if i < |a| {
        assert c[i] == a[i];
        var p, k :| k in A && a[i].name == LabelText(p, k);
        assert k in A + B;
      } else {
        assert c[i] == b[i - |a|];
        var p, k :| k in B && b[i - |a|].name == LabelText(p, k);
        assert k in A + B;
      }
    }
    forall i, j | 0 <= i < j < |c| && c[i].Label? && c[j].Label?
      ensures c[i].name != c[j].name
    {
      if j < |a| {
        assert c[i] == a[i] && c[j] == a[j];
      } else if i >= |a| {
        assert c[i] == b[i - |a|] && c[j] == b[j - |a|];
      } else {
        assert c[i] == a[i] && c[j] == b[j - |a|];
        var p, k :| k in A && c[i].name == LabelText(p, k);
        var q, m :| m in B && c[j].name == LabelText(q, m);
        assert k != m;
        LabelTextDistinct(p, k, q, m);
      }
    }
  }

  lemma {:induction false} LabelTextDistinct(p: string, k: nat, q: string, m: nat)
    requires k != m
    ensures LabelText(p, k) != LabelText(q, m)
  {
    if LabelText(p, k) == LabelText(q, m) {
      LabelTextInjective(p, k, q, m);
    }
  }

  lemma {:induction false} LabelsWeaken(c: seq<VmOp>, A: set<nat>, B: set<nat>)
    requires LabelsIn(c, A) && A <= B
    ensures LabelsIn(c, B)
  {
    forall i | 0 <= i < |c| && c[i].Label?
      ensures Drawn(c[i].name, B)
    {
      var p, k :| k in A && c[i].name == LabelText(p, k);
      assert k in B;
    }
  }

  lemma {:induction false} LabelSetConcat(a: seq<VmOp>, b: seq<VmOp>)
    ensures LabelSet(a + b) == LabelSet(a) + LabelSet(b)
  {
    var c := a + b;
    forall l | l in LabelSet(c)
      ensures l in LabelSet(a) + LabelSet(b)
    {
      var i :| 0 <= i < |c| && c[i].Label? && c[i].name == l;
      if i < |a| {
        assert c[i] == a[i];
      } else {
        assert c[i] == b[i - |a|];
      }
    }
    forall l | l in LabelSet(a) + LabelSet(b)
      ensures l in LabelSet(c)
    {
      if l in LabelSet(a) {
        var i :| 0 <= i < |a| && a[i].Label? && a[i].name == l;
        assert c[i] == a[i];
      } else {
        var i :| 0 <= i < |b| && b[i].Label? && b[i].name == l;
        assert c[i + |a|] == b[i];
      }
    }
  }

  lemma {:induction false} JumpsConcat(a: seq<VmOp>, b: seq<VmOp>, L: set<string>)
    requires JumpsIn(a, L) && JumpsIn(b, L)
    ensures JumpsIn(a + b, L)
  {
    assert forall i :: 0 <= i < |a| ==> (a + b)[i] == a[i];
    assert forall i :: |a| <= i < |a + b| ==> (a + b)[i] == b[i - |a|];
  }

  lemma {:induction false} OneLabel(p: string, k: nat)
    ensures LabelsIn([Label(LabelText(p, k))], {k})
    ensures LabelSet([Label(LabelText(p, k))]) == {LabelText(p, k)}
  {
    var c := [Label(LabelText(p, k))];
    assert Drawn(LabelText(p, k), {k});
    assert c[0].Label? && c[0].name == LabelText(p, k);
    assert LabelText(p, k) in LabelSet(c);
  }

  /** Two runs of closed code drawn from consecutive counter ranges make closed code. */
  lemma {:induction false} ClosedConcat(a: seq<VmOp>, b: seq<VmOp>, n0: nat, n1: nat, n2: nat)
    requires Closed(a, n0, n1) && Closed(b, n1, n2)
    ensures Closed(a + b, n0, n2)
  {
    RangeSplit(n0, n1, n2);
    LabelsConcat(a, b, Range(n0, n1), Range(n1, n2));
    LabelSetConcat(a, b);
    JumpsConcat(a, b, LabelSet(a + b));
  }

  // ---------------------------------------------------------------------------
  // Expressions neither define labels nor jump

  lemma {:induction false} AppendCharsNoFlow(s: string)
    ensures NoFlow(AppendChars(s))
    decreases |s|
  {
    if s != [] {
      AppendCharsNoFlow(s[..|s| - 1]);
      NoFlowConcat(AppendChars(s[..|s| - 1]), [Push(SegConst, s[|s| - 1] as int), Call("String.appendChar", 2)]);
    }
  }

  lemma {:induction false} TermNoFlow(t: Term, tb: Tables)
    requires TermCode(t, tb).Some?
    ensures NoFlow(TermCode(t, tb).value.code)
    decreases t
  {
    match t
    case TStr(s) =>
      AppendCharsNoFlow(s);
      NoFlowConcat([Push(SegConst, |s|), Call("String.new", 1)], AppendChars(s));
    case TParen(e) => ExprNoFlow(e, tb);
    case TNot(e) =>
      ExprNoFlow(e, tb);
      NoFlowConcat(ExprCode(e, tb).value, [Arith(CmdNot)]);
    case TNeg(e) =>
      ExprNoFlow(e, tb);
      NoFlowConcat(ExprCode(e, tb).value, [Arith(CmdNeg)]);
    case _ =>
  }

  lemma {:induction false} IndexNoFlow(index: Option<Expr>, tb: Tables)
    requires IndexCode(index, tb).Some?
    ensures NoFlow(IndexCode(index, tb).value)
    decreases index
  {
    match index
    case None =>
    case Some(i) =>
      ExprNoFlow(i, tb);
      NoFlowConcat(ExprCode(i, tb).value, [Arith(CmdAdd), Pop(SegPointer, 1), Push(SegThat, 0)]);
  }

  lemma {:induction false} TailNoFlow(t: Tail, fn: string, entry: Option<Entry>, tb: Tables)
    requires TailCode(t, fn, entry, tb).Some?
    ensures NoFlow(TailCode(t, fn, entry, tb).value)
    decreases t
  {
    match t
    case NoTail =>
    case BinOp(op, rhs) =>
      ExprNoFlow(rhs, tb);
      NoFlowConcat(ExprCode(rhs, tb).value, [OpCode(op)]);
    case CallArgs(args, _) =>
      var (name, n) := Callee(fn, entry, |args|).value;
      ArgsNoFlow(args, tb);
      NoFlowConcat(ArgsCode(args, tb).value, [Call(name, n)]);
  }

  lemma {:induction false} ArgsNoFlow(args: seq<Expr>, tb: Tables)
    requires ArgsCode(args, tb).Some?
    ensures NoFlow(ArgsCode(args, tb).value)
    decreases args
  {
    if args != [] {
      ArgsNoFlow(args[..|args| - 1], tb);
      ExprNoFlow(args[|args| - 1], tb);
      NoFlowConcat(ArgsCode(args[..|args| - 1], tb).value, ExprCode(args[|args| - 1], tb).value);
    }
  }

  /** The code of an expression holds no label, goto or if-goto. */
  lemma {:induction false} ExprNoFlow(e: Expr, tb: Tables)
    requires ExprCode(e, tb).Some?
    ensures NoFlow(ExprCode(e, tb).value)
    decreases e
  {
    var r := TermCode(e.term, tb).value;
    TermNoFlow(e.term, tb);
    IndexNoFlow(e.index, tb);
    TailNoFlow(e.tail, WithMember(r.fn, e.member), r.entry, tb);
    NoFlowConcat(r.code, IndexCode(e.index, tb).value);
    NoFlowConcat(r.code + IndexCode(e.index, tb).value, TailCode(e.tail, WithMember(r.fn, e.member), r.entry, tb).value);
  }

  // ---------------------------------------------------------------------------
  // Statements

  lemma {:induction false} NoFlowClosed(c: seq<VmOp>, n: nat)
    requires NoFlow(c)
    ensures Closed(c, n, n)
  {
    NoFlowNeutral(c, Range(n, n), {});
  }

  /** The counters a statement draws: n and n + 1 for its own labels, the rest for the blocks inside it. */
  lemma {:induction false} RangeAround(n: nat, n': nat)
    requires n + 2 <= n'
    ensures {n} !! Range(n + 2, n') && {n + 1} !! Range(n + 2, n') && {n} !! {n + 1}
    ensures {n} + Range(n + 2, n') + {n + 1} == Range(n, n') && Range(n + 2, n') + {n} + {n + 1} == Range(n, n')
  {
    forall k: nat
      ensures (k in Range(n + 2, n') <==> n + 2 <= k < n') && (k in Range(n, n') <==> n <= k < n')
    {
      RangeMember(n + 2, n', k);
      RangeMember(n, n', k);
    }
    RangeMember(n + 2, n', n);
    RangeMember(n + 2, n', n + 1);
  }

  /** The labels of while: L and E drawn at n and n + 1 around the body's. */
  lemma {:induction false} WhileLabels(cc: seq<VmOp>, bc: seq<VmOp>, n: nat, n': nat)
    requires NoFlow(cc) && n + 2 <= n' && LabelsIn(bc, Range(n + 2, n'))
    ensures LabelsIn([Label(LabelText("loop", n))] + cc + [Arith(CmdNot), IfGoto(LabelText("end", n + 1))] + bc
                     + [Goto(LabelText("loop", n)), Label(LabelText("end", n + 1))], Range(n, n'))
  {
    var loop, end := LabelText("loop", n), LabelText("end", n + 1);
    var x1, x3, x5 := [Label(loop)], [Arith(CmdNot), IfGoto(end)], [Goto(loop), Label(end)];
    RangeAround(n, n');
    OneLabel("loop", n);
    NoFlowNeutral(cc, {}, {});
    assert LabelsIn(x3, {});
    assert Drawn(end, {n + 1});
    assert LabelsIn(x5, {n + 1});
    LabelsConcat(x1, cc, {n}, {});
    assert {n} + {} == {n};
    LabelsConcat(x1 + cc, x3, {n}, {});
    LabelsConcat(x1 + cc + x3, bc, {n}, Range(n + 2, n'));
    LabelsConcat(x1 + cc + x3 + bc, x5, {n} + Range(n + 2, n'), {n + 1});
  }

  /** The jumps of while: if-goto E and goto L, both to labels it defines, and the body's own. */
  lemma {:induction false} WhileJumps(cc: seq<VmOp>, bc: seq<VmOp>, n: nat)
    requires NoFlow(cc) && JumpsIn(bc, LabelSet(bc))
    ensures var c := [Label(LabelText("loop", n))] + cc + [Arith(CmdNot), IfGoto(LabelText("end", n + 1))] + bc
                     + [Goto(LabelText("loop", n)), Label(LabelText("end", n + 1))];
      JumpsIn(c, LabelSet(c))
  {
    var loop, end := LabelText("loop", n), LabelText("end", n + 1);
    var x1, x3, x5 := [Label(loop)], [Arith(CmdNot), IfGoto(end)], [Goto(loop), Label(end)];
    var c := x1 + cc + x3 + bc + x5;
    NoFlowNeutral(cc, {}, {});
    LabelSetConcat(x1 + cc + x3, bc);
    LabelSetConcat(x1 + cc + x3 + bc, x5);
    assert x1 + cc + x3 + bc + x5 == c;
    assert c[0] == Label(loop) && c[|c| - 1] == Label(end);
    var L := LabelSet(c);
    assert loop in L && end in L && LabelSet(bc) <= L;
    JumpsConcat(x1, cc, L);
    JumpsConcat(x1 + cc, x3, L);
    JumpsConcat(x1 + cc + x3, bc, L);
    JumpsConcat(x1 + cc + x3 + bc, x5, L);
  }

  /** While's code is closed: `label L; cond; not; if-goto E; body; goto L; label E` with L, E drawn at n and n + 1. */
  lemma {:induction false} WhileClosed(cc: seq<VmOp>, bc: seq<VmOp>, n: nat, n': nat)
    requires NoFlow(cc) && Closed(bc, n + 2, n')
    ensures Closed([Label(LabelText("loop", n))] + cc + [Arith(CmdNot), IfGoto(LabelText("end", n + 1))] + bc
                   + [Goto(LabelText("loop", n)), Label(LabelText("end", n + 1))], n, n')
  {
    WhileLabels(cc, bc, n, n');
    WhileJumps(cc, bc, n);
  }

  /** The counters an if draws: n and n + 1 for its own labels, then the then-block's, then the else-block's. */
  lemma {:induction false} RangeAroundIf(n: nat, n1: nat, n2: nat)
    requires n + 2 <= n1 <= n2
    ensures Range(n + 2, n1) !! {n} && Range(n + 2, n1) + {n} !! Range(n1, n2)
    ensures Range(n + 2, n1) + {n} + Range(n1, n2) !! {n + 1}
    ensures Range(n + 2, n1) + {n} + Range(n1, n2) + {n + 1} == Range(n, n2)
  {
    forall k: nat
      ensures (k in Range(n + 2, n1) <==> n + 2 <= k < n1) && (k in Range(n1, n2) <==> n1 <= k < n2)
      ensures k in Range(n, n2) <==> n <= k < n2
    {
      RangeMember(n + 2, n1, k);
      RangeMember(n1, n2, k);
      RangeMember(n, n2, k);
    }
    RangeMember(n + 2, n1, n);
    RangeMember(n1, n2, n);
    RangeMember(n1, n2, n + 1);
    RangeMember(n + 2, n1, n + 1);
  }

  /** The labels of if: the then-block's, X drawn at n, the else-block's, Y drawn at n + 1. */
  lemma {:induction false} IfLabels(cc: seq<VmOp>, tc: seq<VmOp>, ec: seq<VmOp>, n: nat, n1: nat, n2: nat)
    requires NoFlow(cc) && n + 2 <= n1 <= n2 && LabelsIn(tc, Range(n + 2, n1)) && LabelsIn(ec, Range(n1, n2))
    ensures LabelsIn(cc + [Arith(CmdNot), IfGoto(LabelText("else", n))] + tc + [Goto(LabelText("end", n + 1)), Label(LabelText("else", n))]
                     + ec + [Label(LabelText("end", n + 1))], Range(n, n2))
  {
    var el, end := LabelText("else", n), LabelText("end", n + 1);
    var x2, x4, x6 := [Arith(CmdNot), IfGoto(el)], [Goto(end), Label(el)], [Label(end)];
    RangeAroundIf(n, n1, n2);
    NoFlowNeutral(cc, {}, {});
    assert LabelsIn(x2, {});
    assert Drawn(el, {n});
    assert LabelsIn(x4, {n});
    OneLabel("end", n + 1);
    LabelsConcat(cc, x2, {}, {});
    LabelsConcat(cc + x2, tc, {}, Range(n + 2, n1));
    assert {} + Range(n + 2, n1) == Range(n + 2, n1);
    LabelsConcat(cc + x2 + tc, x4, Range(n + 2, n1), {n});
    LabelsConcat(cc + x2 + tc + x4, ec, Range(n + 2, n1) + {n}, Range(n1, n2));
    LabelsConcat(cc + x2 + tc + x4 + ec, x6, Range(n + 2, n1) + {n} + Range(n1, n2), {n + 1});
  }

  /** The jumps of if: if-goto X and goto Y, both to labels it defines, and the blocks' own. */
  lemma {:induction false} IfJumps(cc: seq<VmOp>, tc: seq<VmOp>, ec: seq<VmOp>, n: nat)
    requires NoFlow(cc) && JumpsIn(tc, LabelSet(tc)) && JumpsIn(ec, LabelSet(ec))
    ensures var c := cc + [Arith(CmdNot), IfGoto(LabelText("else", n))] + tc + [Goto(LabelText("end", n + 1)), Label(LabelText("else", n))]
                     + ec + [Label(LabelText("end", n + 1))];
      JumpsIn(c, LabelSet(c))
  {
    var el, end := LabelText("else", n), LabelText("end", n + 1);
    var x2, x4, x6 := [Arith(CmdNot), IfGoto(el)], [Goto(end), Label(el)], [Label(end)];
    var c := cc + x2 + tc + x4 + ec + x6;
    LabelSetConcat(cc + x2, tc);
    LabelSetConcat(cc + x2 + tc, x4);
    LabelSetConcat(cc + x2 + tc + x4, ec);
    LabelSetConcat(cc + x2 + tc + x4 + ec, x6);
    OneLabel("end", n + 1);
    assert x4[1] == Label(el);
    assert el in LabelSet(x4);
    var L := LabelSet(c);
    assert el in L && end in L && LabelSet(tc) <= L && LabelSet(ec) <= L;
    NoFlowNeutral(cc, {}, L);
    JumpsConcat(cc, x2, L);
    JumpsConcat(cc + x2, tc, L);
    JumpsConcat(cc + x2 + tc, x4, L);
    JumpsConcat(cc + x2 + tc + x4, ec, L);
    JumpsConcat(cc + x2 + tc + x4 + ec, x6, L);
  }

  /**
    If's code is closed: `cond; not; if-goto X; then; goto Y; label X; else; label Y`
    with X, Y drawn at n and n + 1; `label Y` is there even without else.
  */
  lemma {:induction false} IfClosed(cc: seq<VmOp>, tc: seq<VmOp>, ec: seq<VmOp>, n: nat, n1: nat, n2: nat)
    requires NoFlow(cc) && Closed(tc, n + 2, n1) && Closed(ec, n1, n2)
    ensures Closed(cc + [Arith(CmdNot), IfGoto(LabelText("else", n))] + tc + [Goto(LabelText("end", n + 1)), Label(LabelText("else", n))]
                   + ec + [Label(LabelText("end", n + 1))], n, n2)
  {
    IfLabels(cc, tc, ec, n, n1, n2);
    IfJumps(cc, tc, ec, n);
  }

  /**
    The code of a statement started at label counter n is closed: its labels
    are drawn with counters n .. n' - 1 (n' the counter after it), none is
    defined twice, and every goto and if-goto lands on one of them.
  */
  lemma {:induction false} StmtClosed(s: Stmt, tb: Tables, n: nat)
    requires StmtCode(s, tb, n).Some?
    ensures Closed(StmtCode(s, tb, n).value.0, n, StmtCode(s, tb, n).value.1)
    decreases s
  {
    match s
    case Do(e) =>
      ExprNoFlow(e, tb);
      NoFlowConcat(ExprCode(e, tb).value, [Pop(SegTemp, 0)]);
      NoFlowClosed(ExprCode(e, tb).value + [Pop(SegTemp, 0)], n);
    case Let(name, index, value) =>
      var entry := Lookup(tb, name).value;
      var vc := ExprCode(value, tb).value;
      ExprNoFlow(value, tb);
      match index {
        case None =>
          NoFlowConcat(vc, [PopVar(entry)]);
          NoFlowClosed(vc + [PopVar(entry)], n);
        case Some(i) =>
          var ic := ExprCode(i, tb).value;
          ExprNoFlow(i, tb);
          NoFlowConcat([PushVar(entry)], ic);
          NoFlowConcat([PushVar(entry)] + ic, [Arith(CmdAdd), Pop(SegPointer, 1)]);
          NoFlowConcat([PushVar(entry)] + ic + [Arith(CmdAdd), Pop(SegPointer, 1)], vc);
          NoFlowConcat([PushVar(entry)] + ic + [Arith(CmdAdd), Pop(SegPointer, 1)] + vc, [Pop(SegThat, 0)]);
          NoFlowClosed([PushVar(entry)] + ic + [Arith(CmdAdd), Pop(SegPointer, 1)] + vc + [Pop(SegThat, 0)], n);
      }
    case While(cond, body) =>
      ExprNoFlow(cond, tb);
      StmtsClosed(body, tb, n + 2);
      var (bc, n') := StmtsCode(body, tb, n + 2).value;
      WhileClosed(ExprCode(cond, tb).value, bc, n, n');
    case Return(result) =>
      match result {
        case None =>
          NoFlowClosed([Push(SegConst, 0), VmOp.Return], n);
        case Some(e) =>
          ExprNoFlow(e, tb);
          NoFlowConcat(ExprCode(e, tb).value, [VmOp.Return]);
          NoFlowClosed(ExprCode(e, tb).value + [VmOp.Return], n);
      }
    case If(cond, th, hasElse, el) =>
      ExprNoFlow(cond, tb);
      StmtsClosed(th, tb, n + 2);
      var (tc, n1) := StmtsCode(th, tb, n + 2).value;
      if hasElse {
        StmtsClosed(el, tb, n1);
        var (ec, n2) := StmtsCode(el, tb, n1).value;
        IfClosed(ExprCode(cond, tb).value, tc, ec, n, n1, n2);
      } else {
        NoFlowClosed([], n1);
        IfClosed(ExprCode(cond, tb).value, tc, [], n, n1, n1);
      }
  }

  /** The code of a statement sequence started at counter n is closed with counters n .. n' - 1. */
  lemma {:induction false} StmtsClosed(ss: seq<Stmt>, tb: Tables, n: nat)
    requires StmtsCode(ss, tb, n).Some?
    ensures Closed(StmtsCode(ss, tb, n).value.0, n, StmtsCode(ss, tb, n).value.1)
    decreases ss
  {
    if ss == [] {
      NoFlowClosed([], n);
    } else {
      StmtsClosed(ss[..|ss| - 1], tb, n);
      var (p, n1) := StmtsCode(ss[..|ss| - 1], tb, n).value;
      StmtClosed(ss[|ss| - 1], tb, n1);
      var (c, n2) := StmtCode(ss[|ss| - 1], tb, n1).value;
      ClosedConcat(p, c, n, n1, n2);
    }
  }

  // ---------------------------------------------------------------------------
  // Declarations

  /** The names the var lines declare, in order. */
  function LocalNames(vs: seq<VarDec>): seq<string> {
    if vs == [] then [] else LocalNames(vs[..|vs| - 1]) + [vs[|vs| - 1].first] + vs[|vs| - 1].more
  }

  /** nLocals, which `function Class.name nLocals` carries, is the number of names the var lines declare. */
  lemma {:induction false} LocalsCountNames(vs: seq<VarDec>, tb: Tables)
    ensures LocalsEffect(vs, tb).1 == |LocalNames(vs)|
    decreases vs
  {
    if vs != [] {
      LocalsCountNames(vs[..|vs| - 1], tb);
    }
  }

  /**
    A subroutine's code opens with `function Class.name n`, n the number of
    names its var lines declare (parameters not counted); a constructor's
    then goes on with `push constant nFields; call Memory.alloc 1; pop pointer 0`.
  */
  lemma {:induction false} SubroutineHeader(s: Subroutine, className: string, nFields: int, tb: Tables, n: nat)
    requires SubroutineCode(s, className, nFields, tb, n).Some?
    ensures var c := SubroutineCode(s, className, nFields, tb, n).value.0;
      |c| >= 1 && c[0] == Function(className + "." + s.name, |LocalNames(s.locals)|) &&
      (s.kind.literal == "constructor" ==>
        |c| >= 4 && c[1..4] == [Push(SegConst, nFields), Call("Memory.alloc", 1), Pop(SegPointer, 0)])
  {
    LocalsCountNames(s.locals, ParamsEffect(s.params, Reset(tb)));
  }

  /** A subroutine's code is the body's code behind a header that neither defines labels nor jumps. */
  lemma {:induction false} SubroutineClosed(s: Subroutine, className: string, nFields: int, tb: Tables, n: nat)
    requires SubroutineCode(s, className, nFields, tb, n).Some?
    ensures var (c, _, n') := SubroutineCode(s, className, nFields, tb, n).value; Closed(c, n, n')
  {
    var t1 := ParamsEffect(s.params, Reset(tb));
    var (t2, nLocals) := LocalsEffect(s.locals, t1);
    var (bc, n') := StmtsCode(s.body, t2, n).value;
    var head := [Function(className + "." + s.name, nLocals)] + Prologue(s.kind.literal, nFields);
    StmtsClosed(s.body, t2, n);
    assert NoFlow(head);
    NoFlowClosed(head, n);
    ClosedConcat(head, bc, n, n, n');
  }

  /**
    The code of a whole class is closed: genLabel's counter never hands out
    the same label twice, and every jump lands on a label of the class.
  */
  lemma {:induction false} SubroutinesClosed(ss: seq<Subroutine>, className: string, nFields: int, tb: Tables, n: nat)
    requires SubroutinesCode(ss, className, nFields, tb, n).Some?
    ensures var (c, _, n') := SubroutinesCode(ss, className, nFields, tb, n).value; Closed(c, n, n')
    decreases ss
  {
    if ss == [] {
      NoFlowClosed([], n);
    } else {
      SubroutinesClosed(ss[..|ss| - 1], className, nFields, tb, n);
      var (p, t1, n1) := SubroutinesCode(ss[..|ss| - 1], className, nFields, tb, n).value;
      SubroutineClosed(ss[|ss| - 1], className, nFields, t1, n1);
      var (c, t2, n2) := SubroutineCode(ss[|ss| - 1], className, nFields, t1, n1).value;
      ClosedConcat(p, c, n, n1, n2);
    }
  }

  lemma {:induction false} ClassClosed(c: Class, tb: Tables, n: nat)
    requires ClassCode(c, tb, n).Some?
    ensures var (code, _, n') := ClassCode(c, tb, n).value; Closed(code, n, n')
  {
    var (t1, nFields) := ClassVarDecsEffect(c.vars, tb).value;
    SubroutinesClosed(c.subs, c.name, nFields, t1, n);
  }

  /** The names declared with storage `field`. */
  function FieldNames(vs: seq<ClassVarDec>): nat {
    if vs == [] then 0
    else FieldNames(vs[..|vs| - 1]) + (var v := vs[|vs| - 1]; if v.storage.literal == "field" then 1 + |v.more| else 0)
  }

  /** The names after the first in declarations with storage `static`. */
  function ExtraStaticNames(vs: seq<ClassVarDec>): nat {
    if vs == [] then 0
    else ExtraStaticNames(vs[..|vs| - 1]) + (var v := vs[|vs| - 1]; if v.storage.literal == "static" then |v.more| else 0)
  }

  /**
    nFields as compileClass sums it: every field name, plus every static
    name after the first of its declaration.
  */
  lemma {:induction false} FieldCountAsWritten(vs: seq<ClassVarDec>, tb: Tables)
    requires ClassVarDecsEffect(vs, tb).Some?
    ensures ClassVarDecsEffect(vs, tb).value.1 == FieldNames(vs) + ExtraStaticNames(vs)
    decreases vs
  {
    if vs != [] {
      FieldCountAsWritten(vs[..|vs| - 1], tb);
    }
  }

  /** `static int a, b;` alone makes nFields 1 though the class has no field, so a constructor allocates one word. */
  lemma {:induction false} ExtraStaticCountedAsField()
    ensures var v := ClassVarDec(Tok(TokenStatic, "static"), Tok(TokenInt, "int"), "a", ["b"]);
      FieldNames([v]) == 0 && ClassVarDecsEffect([v], Empty).Some? && ClassVarDecsEffect([v], Empty).value.1 == 1
  {
    var v := ClassVarDec(Tok(TokenStatic, "static"), Tok(TokenInt, "int"), "a", ["b"]);
    assert [v][..0] == [];
  }

  /**
    Parameters with distinct names become arguments in order: the i-th gets
    the argument counter plus i, and the counter ends |ps| higher.
  */
  lemma {:induction false} ParamsAsArguments(ps: seq<Param>, tb: Tables)
    requires forall i, j :: 0 <= i < j < |ps| ==> ps[i].name != ps[j].name
    ensures var u := ParamsEffect(ps, tb);
      Next(u, ScopeArg) == Next(tb, ScopeArg) + |ps| &&
      forall i :: 0 <= i < |ps| ==>
        ps[i].name in u.localScope && u.localScope[ps[i].name] == Entry(ps[i].name, ps[i].typ.literal, ScopeArg, Next(tb, ScopeArg) + i)
    decreases ps
  {
    if ps != [] {
      var init := ps[..|ps| - 1];
      var p := ps[|ps| - 1];
      assert forall i, j :: 0 <= i < j < |init| ==> init[i].name != init[j].name by {
        assert forall i :: 0 <= i < |init| ==> init[i] == ps[i];
      }
      ParamsAsArguments(init, tb);
      var t := ParamsEffect(init, tb);
      var u := ParamsEffect(ps, tb);
      assert u == Defined(t, p.name, p.typ.literal, ScopeArg);
      forall i | 0 <= i < |ps|
        ensures ps[i].name in u.localScope && u.localScope[ps[i].name] == Entry(ps[i].name, ps[i].typ.literal, ScopeArg, Next(tb, ScopeArg) + i)
      {
        if i < |ps| - 1 {
          assert ps[i] == init[i] && ps[i].name != p.name;
        }
      }
    }
  }

  // ---------------------------------------------------------------------------
  // Array stores

  /** What the end of an array store reads and writes: the stack, THAT (pointer 1), temp 0 and the heap. */
  datatype StoreState = StoreState(stack: seq<int>, that: int, temp: int, heap: map<int, int>)

  /** The effect of the operations an array store ends with; None for any other operation or a stack too short. */
  function StoreStep(m: StoreState, op: VmOp): Option<StoreState> {
    var n := |m.stack|;
    if op == Pop(SegPointer, 1) && n > 0 then Some(m.(stack := m.stack[..n - 1], that := m.stack[n - 1]))
    else if op == Pop(SegThat, 0) && n > 0 then Some(m.(stack := m.stack[..n - 1], heap := m.heap[m.that := m.stack[n - 1]]))
    else if op == Pop(SegTemp, 0) && n > 0 then Some(m.(stack := m.stack[..n - 1], temp := m.stack[n - 1]))
    else if op == Push(SegTemp, 0) then Some(m.(stack := m.stack + [m.temp]))
    else if op == Push(SegThat, 0) && m.that in m.heap then Some(m.(stack := m.stack + [m.heap[m.that]]))
    else None
  }

  function StoreRun(m: StoreState, ops: seq<VmOp>): Option<StoreState>
    decreases |ops|
  {
    if ops == [] then Some(m)
    else
      var m' :- StoreStep(m, ops[0]);
      StoreRun(m', ops[1..])
  }

  /**
    `let a[i] = b[j];` as compileLet writes it: THAT is set to a + i before
    the value is computed, and the value's own `[j]` sets it again, so the
    code ends `pop pointer 1; push that 0; pop that 0`.
  */
  lemma {:induction false} ArrayStoreAsWritten(a: string, b: string, i: Expr, j: Expr, tb: Tables, n: nat)
    requires Lookup(tb, a).Some? && Lookup(tb, b).Some? && ExprCode(i, tb).Some? && ExprCode(j, tb).Some?
    ensures var c := StmtCode(Let(a, Some(i), Expr(TName(b), None, Some(j), NoTail)), tb, n);
      c.Some? && |c.value.0| >= 3 && c.value.0[|c.value.0| - 3..] == [Pop(SegPointer, 1), Push(SegThat, 0), Pop(SegThat, 0)]
  {
    var v := Expr(TName(b), None, Some(j), NoTail);
    var eb, jc := Lookup(tb, b).value, ExprCode(j, tb).value;
    var tail := [Arith(CmdAdd), Pop(SegPointer, 1), Push(SegThat, 0)];
    assert TermCode(TName(b), tb) == Some(TermResult([PushVar(eb)], "", Some(eb)));
    assert IndexCode(Some(j), tb) == Some(jc + tail);
    var vc := [PushVar(eb)] + (jc + tail) + [];
    assert ExprCode(v, tb) == Some(vc);
    var ea, ic := Lookup(tb, a).value, ExprCode(i, tb).value;
    var c := [PushVar(ea)] + ic + [Arith(CmdAdd), Pop(SegPointer, 1)] + vc + [Pop(SegThat, 0)];
    assert StmtCode(Let(a, Some(i), v), tb, n) == Some((c, n));
    assert c == [PushVar(ea)] + ic + [Arith(CmdAdd), Pop(SegPointer, 1), PushVar(eb)] + jc + [Arith(CmdAdd)] + [Pop(SegPointer, 1), Push(SegThat, 0), Pop(SegThat, 0)];
  }

  /**
    What that ending does. THAT holds a + i, popped there before the value
    was compiled; the value's own index leaves b + j on the stack, which
    replaces a + i in THAT. b[j] is then read and stored straight back, so the
    stack loses b + j, THAT ends at b + j, and the heap is unchanged: a + i is
    lost and a[i] is never written.
  */
  lemma {:induction false} ArrayStoreLost(s: seq<int>, y: int, th: int, t: int, h: map<int, int>)
    requires y in h
    ensures StoreRun(StoreState(s + [y], th, t, h), [Pop(SegPointer, 1), Push(SegThat, 0), Pop(SegThat, 0)]) == Some(StoreState(s, y, t, h))
  {
    var m0 := StoreState(s + [y], th, t, h);
    var m1 := StoreState(s, y, t, h);
    assert (s + [y])[..|s|] == s;
    assert StoreStep(m0, Pop(SegPointer, 1)) == Some(m1);
    var m2 := StoreState(s + [h[y]], y, t, h);
    assert StoreStep(m1, Push(SegThat, 0)) == Some(m2);
    assert (s + [h[y]])[..|s|] == s;
    assert h[y := h[y]] == h;
    assert StoreStep(m2, Pop(SegThat, 0)) == Some(m1);
    assert StoreRun(m2, [Pop(SegThat, 0)]) == Some(m1) by { assert [Pop(SegThat, 0)][1..] == []; }
    assert StoreRun(m1, [Push(SegThat, 0), Pop(SegThat, 0)]) == Some(m1) by {
      assert [Push(SegThat, 0), Pop(SegThat, 0)][1..] == [Pop(SegThat, 0)];
    }
    assert [Pop(SegPointer, 1), Push(SegThat, 0), Pop(SegThat, 0)][1..] == [Push(SegThat, 0), Pop(SegThat, 0)];
  }

  /** The store as intended: the value is parked in temp 0 while the address a + i is popped into THAT. */
  const StoreTail: seq<VmOp> := [Pop(SegTemp, 0), Pop(SegPointer, 1), Push(SegTemp, 0), Pop(SegThat, 0)]

  /** `let a[i] = v;` with the address taken into THAT only after v's code has run. */
  function ArrayLetCode(entry: Entry, ic: seq<VmOp>, vc: seq<VmOp>): (c: seq<VmOp>)
    ensures |c| == |ic| + |vc| + 6 && c[|c| - 4..] == StoreTail
    ensures c[|ic| + 2..|c| - 4] == vc
  {
    var c := [PushVar(entry)] + ic + [Arith(CmdAdd)] + vc + StoreTail;
    assert c[|ic| + 2..|c| - 4] == vc;
    c
  }

  /**
    Whatever THAT the value's code left, the corrected ending stores the
    value v at the address x = a + i beneath it, and nothing else changes but
    THAT and temp 0.
  */
  lemma {:induction false} ArrayStoreCorrected(s: seq<int>, x: int, v: int, th: int, t: int, h: map<int, int>)
    ensures StoreRun(StoreState(s + [x, v], th, t, h), StoreTail) == Some(StoreState(s, x, v, h[x := v]))
  {
    var m0 := StoreState(s + [x, v], th, t, h);
    var m1 := StoreState(s + [x], th, v, h);
    assert (s + [x, v])[..|s| + 1] == s + [x];
    assert StoreStep(m0, Pop(SegTemp, 0)) == Some(m1);
    var m2 := StoreState(s, x, v, h);
    assert (s + [x])[..|s|] == s;
    assert StoreStep(m1, Pop(SegPointer, 1)) == Some(m2);
    var m3 := StoreState(s + [v], x, v, h);
    assert StoreStep(m2, Push(SegTemp, 0)) == Some(m3);
    assert (s + [v])[..|s|] == s;
    var m4 := StoreState(s, x, v, h[x := v]);
    assert StoreStep(m3, Pop(SegThat, 0)) == Some(m4);
    assert StoreRun(m3, [Pop(SegThat, 0)]) == Some(m4) by { assert [Pop(SegThat, 0)][1..] == []; }
    assert StoreRun(m2, [Push(SegTemp, 0), Pop(SegThat, 0)]) == Some(m4) by {
      assert [Push(SegTemp, 0), Pop(SegThat, 0)][1..] == [Pop(SegThat, 0)];
    }
    assert StoreRun(m1, [Pop(SegPointer, 1), Push(SegTemp, 0), Pop(SegThat, 0)]) == Some(m4) by {
      assert [Pop(SegPointer, 1), Push(SegTemp, 0), Pop(SegThat, 0)][1..] == [Push(SegTemp, 0), Pop(SegThat, 0)];
    }
    assert StoreTail[1..] == [Pop(SegPointer, 1), Push(SegTemp, 0), Pop(SegThat, 0)];
  }
}
