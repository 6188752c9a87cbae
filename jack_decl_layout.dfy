/**
  The declaration layout of JackSyntax is unambiguous as well
  (compiler/engine.go:52-181): a class whose expressions and statements stop
  where the engine stops them (WfClass) is the only class the engine could
  have read from its tokens. With JackLayout this makes the tree that
  compileClass reads a function of the tokens.
*/
module JackDeclLayout {
  import opened Common
  import opened JackSyntax
  import opened JackLayout

  /** No token of ts has a kind in ks. */
  predicate Avoids(ts: seq<Tok>, ks: set<Kind>) {
    forall i :: 0 <= i < |ts| ==> ts[i].kind !in ks
  }

  lemma {:induction false} AvoidsConcat(a: seq<Tok>, b: seq<Tok>, ks: set<Kind>)
    requires Avoids(a, ks) && Avoids(b, ks)
    ensures Avoids(a + b, ks)
  {
    forall i | 0 <= i < |a + b|
      ensures (a + b)[i].kind !in ks
    {
      if i < |a| {
        assert (a + b)[i] == a[i];
      } else {
        assert (a + b)[i] == b[i - |a|];
      }
    }
  }

  /** Two equal streams, each cut before its first token of a kind in ks, are cut at the same place. */
  lemma {:induction false} SplitAt(ks: set<Kind>, a1: seq<Tok>, b1: seq<Tok>, a2: seq<Tok>, b2: seq<Tok>)
    requires a1 + b1 == a2 + b2
    requires Avoids(a1, ks) && Avoids(a2, ks)
    requires b1 != [] && b1[0].kind in ks && b2 != [] && b2[0].kind in ks
    ensures a1 == a2 && b1 == b2
  {
    var n := if |a1| < |a2| then |a1| else |a2|;
    assert (a1 + b1)[n] == (a2 + b2)[n];
    assert |a1| == |a2|;
    SplitEq(a1, b1, a2, b2);
  }

  /** A token whose literal the engine reads is fixed by what the engine sees of it. */
  lemma ShapeFixes(t1: Tok, t2: Tok)
    requires Shape(t1) == Shape(t2) && LiteralMatters(t1.kind)
    ensures t1 == t2
  {
  }

  // ---------------------------------------------------------------------------
  // Name lists

  /** One further name: `, name`. */
  function MoreItem(name: string): seq<Tok> {
    [Mark(TokenComma), Ident(name)]
  }

  lemma MoreSnoc()
    ensures forall ys: seq<string>, y: string :: UMore(ys + [y]) == UMore(ys) + MoreItem(y)
  {
    forall ys: seq<string>, y: string
      ensures UMore(ys + [y]) == UMore(ys) + MoreItem(y)
    {
      assert (ys + [y])[..|ys|] == ys;
    }
  }

  lemma {:induction false} MoreAvoids(names: seq<string>, ks: set<Kind>)
    requires TokenComma !in ks && TokenIdentifier !in ks
    ensures Avoids(UMore(names), ks)
    decreases |names|
  {
    if names != [] {
      MoreAvoids(names[..|names| - 1], ks);
      AvoidsConcat(UMore(names[..|names| - 1]), [Mark(TokenComma), Ident(names[|names| - 1])], ks);
    }
  }

  /** `, name` repeated determines the names. */
  lemma {:induction false} MoreUnique(m1: seq<string>, m2: seq<string>)
    requires UMore(m1) == UMore(m2)
    ensures m1 == m2
  {
    MoreSnoc();
    forall x: string, y: string | MoreItem(x) == MoreItem(y)
      ensures x == y
    {
      assert MoreItem(x)[1] == MoreItem(y)[1];
    }
    SnocUnique(UMore, MoreItem, (n: string) => true, 2, m1, m2);
  }

  /** `head , name ... ;` and what follows, for a three-token head: the shape of both kinds of variable declaration. */
  lemma {:induction false} DeclUnique(h1: seq<Tok>, m1: seq<string>, q1: seq<Tok>, h2: seq<Tok>, m2: seq<string>, q2: seq<Tok>)
    requires |h1| == |h2|
    requires h1 + UMore(m1) + [Mark(TokenSemicolon)] + q1 == h2 + UMore(m2) + [Mark(TokenSemicolon)] + q2
    ensures h1 == h2 && m1 == m2 && q1 == q2
  {
    var e1, e2 := [Mark(TokenSemicolon)] + q1, [Mark(TokenSemicolon)] + q2;
    Assoc3(h1, UMore(m1), [Mark(TokenSemicolon)], q1);
    Assoc3(h2, UMore(m2), [Mark(TokenSemicolon)], q2);
    Assoc(UMore(m1), [Mark(TokenSemicolon)], q1);
    Assoc(UMore(m2), [Mark(TokenSemicolon)], q2);
    SplitEq(h1, UMore(m1) + e1, h2, UMore(m2) + e2);
    MoreAvoids(m1, {TokenSemicolon});
    MoreAvoids(m2, {TokenSemicolon});
    SplitAt({TokenSemicolon}, UMore(m1), e1, UMore(m2), e2);
    MoreUnique(m1, m2);
    SplitEq([Mark(TokenSemicolon)], q1, [Mark(TokenSemicolon)], q2);
  }

  // ---------------------------------------------------------------------------
  // Class variables

  lemma {:induction false} ClassVarDecUnique(v1: ClassVarDec, v2: ClassVarDec, q1: seq<Tok>, q2: seq<Tok>)
    requires UClassVarDec(v1) + q1 == UClassVarDec(v2) + q2
    requires WfClassVarDec(v1) && WfClassVarDec(v2)
    ensures v1 == v2 && q1 == q2
  {
    var h1 := [Shape(v1.storage), Shape(v1.typ), Ident(v1.first)];
    var h2 := [Shape(v2.storage), Shape(v2.typ), Ident(v2.first)];
    DeclUnique(h1, v1.more, q1, h2, v2.more, q2);
    assert h1[0] == h2[0] && h1[1] == h2[1] && h1[2] == h2[2];
    ShapeFixes(v1.storage, v2.storage);
    ShapeFixes(v1.typ, v2.typ);
  }

  lemma {:induction false} ClassVarDecsCons(vs: seq<ClassVarDec>)
    requires vs != []
    ensures UClassVarDecs(vs) == UClassVarDec(vs[0]) + UClassVarDecs(vs[1..])
  {
    forall ys: seq<ClassVarDec>, y: ClassVarDec
      ensures UClassVarDecs(ys + [y]) == UClassVarDecs(ys) + UClassVarDec(y)
    {
      assert (ys + [y])[..|ys|] == ys;
    }
    SnocCons(UClassVarDecs, UClassVarDec, vs);
  }

  /** What a run of class variable declarations starts with. */
  lemma {:induction false} ClassVarDecsFirst(vs: seq<ClassVarDec>, r: seq<Tok>)
    ensures FirstKind(UClassVarDecs(vs) + r) == (if vs == [] then FirstKind(r) else vs[0].storage.kind)
    ensures vs == [] ==> UClassVarDecs(vs) + r == r
  {
    if vs != [] {
      ClassVarDecsCons(vs);
      Assoc(UClassVarDec(vs[0]), UClassVarDecs(vs[1..]), r);
    } else {
      assert UClassVarDecs(vs) + r == r;
    }
  }

  lemma {:induction false} ClassVarDecsTail(vs: seq<ClassVarDec>, r: seq<Tok>)
    requires vs != []
    ensures UClassVarDecs(vs) + r == UClassVarDec(vs[0]) + (UClassVarDecs(vs[1..]) + r)
    ensures WfClassVarDecs(vs) ==> WfClassVarDec(vs[0]) && WfClassVarDecs(vs[1..])
  {
    ClassVarDecsCons(vs);
    Assoc(UClassVarDec(vs[0]), UClassVarDecs(vs[1..]), r);
    if WfClassVarDecs(vs) {
      forall i | 0 <= i < |vs[1..]|
        ensures WfClassVarDec(vs[1..][i])
      {
        assert vs[1..][i] == vs[i + 1];
      }
    }
  }

  /** The class variables compileClassVarDec reads, up to the first token that is neither `static` nor `field`. */
  lemma {:induction false} ClassVarDecsUnique(vs1: seq<ClassVarDec>, vs2: seq<ClassVarDec>, r1: seq<Tok>, r2: seq<Tok>)
    requires UClassVarDecs(vs1) + r1 == UClassVarDecs(vs2) + r2
    requires WfClassVarDecs(vs1) && WfClassVarDecs(vs2)
    requires FirstKind(r1) != TokenStatic && FirstKind(r1) != TokenField
    requires FirstKind(r2) != TokenStatic && FirstKind(r2) != TokenField
    ensures vs1 == vs2 && r1 == r2
    decreases |vs1|, 1
  {
    ClassVarDecsFirst(vs1, r1);
    ClassVarDecsFirst(vs2, r2);
    if vs1 != [] {
      assert WfClassVarDec(vs1[0]);
    }
    if vs2 != [] {
      assert WfClassVarDec(vs2[0]);
    }
    if vs1 != [] && vs2 != [] {
      ClassVarDecsStep(vs1, vs2, r1, r2);
    }
  }

  lemma {:induction false} ClassVarDecsStep(vs1: seq<ClassVarDec>, vs2: seq<ClassVarDec>, r1: seq<Tok>, r2: seq<Tok>)
    requires vs1 != [] && vs2 != []
    requires UClassVarDecs(vs1) + r1 == UClassVarDecs(vs2) + r2
    requires WfClassVarDecs(vs1) && WfClassVarDecs(vs2)
    requires FirstKind(r1) != TokenStatic && FirstKind(r1) != TokenField
    requires FirstKind(r2) != TokenStatic && FirstKind(r2) != TokenField
    ensures vs1 == vs2 && r1 == r2
    decreases |vs1|, 0
  {
    ClassVarDecsTail(vs1, r1);
    ClassVarDecsTail(vs2, r2);
    ClassVarDecUnique(vs1[0], vs2[0], UClassVarDecs(vs1[1..]) + r1, UClassVarDecs(vs2[1..]) + r2);
    ClassVarDecsUnique(vs1[1..], vs2[1..], r1, r2);
    ConsSplit(vs1);
    ConsSplit(vs2);
  }

  // ---------------------------------------------------------------------------
  // Local variables

  lemma {:induction false} VarDecUnique(v1: VarDec, v2: VarDec, q1: seq<Tok>, q2: seq<Tok>)
    requires UVarDec(v1) + q1 == UVarDec(v2) + q2
    requires IsTypeKind(v1.typ.kind) && IsTypeKind(v2.typ.kind)
    ensures v1 == v2 && q1 == q2
  {
    var h1 := [Mark(TokenVar), Shape(v1.typ), Ident(v1.first)];
    var h2 := [Mark(TokenVar), Shape(v2.typ), Ident(v2.first)];
    DeclUnique(h1, v1.more, q1, h2, v2.more, q2);
    assert h1[1] == h2[1] && h1[2] == h2[2];
    ShapeFixes(v1.typ, v2.typ);
  }

  lemma {:induction false} VarDecsCons(vs: seq<VarDec>)
    requires vs != []
    ensures UVarDecs(vs) == UVarDec(vs[0]) + UVarDecs(vs[1..])
  {
    forall ys: seq<VarDec>, y: VarDec
      ensures UVarDecs(ys + [y]) == UVarDecs(ys) + UVarDec(y)
    {
      assert (ys + [y])[..|ys|] == ys;
    }
    SnocCons(UVarDecs, UVarDec, vs);
  }

  /** What a run of local declarations starts with. */
  lemma {:induction false} VarDecsFirst(vs: seq<VarDec>, r: seq<Tok>)
    ensures FirstKind(UVarDecs(vs) + r) == (if vs == [] then FirstKind(r) else TokenVar)
    ensures vs == [] ==> UVarDecs(vs) + r == r
  {
    if vs != [] {
      VarDecsCons(vs);
      Assoc(UVarDec(vs[0]), UVarDecs(vs[1..]), r);
    } else {
      assert UVarDecs(vs) + r == r;
    }
  }

  lemma {:induction false} VarDecsTail(vs: seq<VarDec>, r: seq<Tok>)
    requires vs != []
    ensures UVarDecs(vs) + r == UVarDec(vs[0]) + (UVarDecs(vs[1..]) + r)
    ensures TypedLocals(vs) ==> IsTypeKind(vs[0].typ.kind) && TypedLocals(vs[1..])
  {
    VarDecsCons(vs);
    Assoc(UVarDec(vs[0]), UVarDecs(vs[1..]), r);
    if TypedLocals(vs) {
      forall i | 0 <= i < |vs[1..]|
        ensures IsTypeKind(vs[1..][i].typ.kind)
      {
        assert vs[1..][i] == vs[i + 1];
      }
    }
  }

  /** The locals compileVarDec reads, up to the first token that is not `var`. */
  lemma {:induction false} VarDecsUnique(vs1: seq<VarDec>, vs2: seq<VarDec>, r1: seq<Tok>, r2: seq<Tok>)
    requires UVarDecs(vs1) + r1 == UVarDecs(vs2) + r2
    requires TypedLocals(vs1) && TypedLocals(vs2)
    requires FirstKind(r1) != TokenVar && FirstKind(r2) != TokenVar
    ensures vs1 == vs2 && r1 == r2
    decreases |vs1|, 1
  {
    VarDecsFirst(vs1, r1);
    VarDecsFirst(vs2, r2);
    if vs1 != [] && vs2 != [] {
      VarDecsStep(vs1, vs2, r1, r2);
    }
  }

  lemma {:induction false} VarDecsStep(vs1: seq<VarDec>, vs2: seq<VarDec>, r1: seq<Tok>, r2: seq<Tok>)
    requires vs1 != [] && vs2 != []
    requires UVarDecs(vs1) + r1 == UVarDecs(vs2) + r2
    requires TypedLocals(vs1) && TypedLocals(vs2)
    requires FirstKind(r1) != TokenVar && FirstKind(r2) != TokenVar
    ensures vs1 == vs2 && r1 == r2
    decreases |vs1|, 0
  {
    VarDecsTail(vs1, r1);
    VarDecsTail(vs2, r2);
    VarDecUnique(vs1[0], vs2[0], UVarDecs(vs1[1..]) + r1, UVarDecs(vs2[1..]) + r2);
    VarDecsUnique(vs1[1..], vs2[1..], r1, r2);
    ConsSplit(vs1);
    ConsSplit(vs2);
  }

  // ---------------------------------------------------------------------------
  // Parameters

  /** One parameter followed by its comma. */
  function ParamItem(p: Param): seq<Tok> {
    UParam(p) + [Mark(TokenComma)]
  }

  predicate Typed(p: Param) {
    IsTypeKind(p.typ.kind)
  }

  lemma ParamsRestSnoc()
    ensures forall ys: seq<Param>, y: Param :: UParamsRest(ys + [y]) == UParamsRest(ys) + ParamItem(y)
  {
    forall ys: seq<Param>, y: Param
      ensures UParamsRest(ys + [y]) == UParamsRest(ys) + ParamItem(y)
    {
      assert (ys + [y])[..|ys|] == ys;
    }
  }

  lemma {:induction false} ParamsRestLength(ps: seq<Param>)
    ensures |UParamsRest(ps)| == 3 * |ps|
  {
    ParamsRestSnoc();
    SnocLength(UParamsRest, ParamItem, 3, ps);
  }

  lemma {:induction false} ParamsRestAvoids(ps: seq<Param>)
    requires TypedParams(ps)
    ensures Avoids(UParamsRest(ps), {TokenRParen})
    decreases |ps|
  {
    if ps != [] {
      var init := ps[..|ps| - 1];
      TypedInit(ps);
      ParamsRestAvoids(init);
      AvoidsConcat(UParamsRest(init), UParam(ps[|ps| - 1]) + [Mark(TokenComma)], {TokenRParen});
      Assoc(UParamsRest(init), UParam(ps[|ps| - 1]), [Mark(TokenComma)]);
    }
  }

  lemma {:induction false} TypedInit(ps: seq<Param>)
    requires TypedParams(ps) && ps != []
    ensures TypedParams(ps[..|ps| - 1]) && IsTypeKind(ps[|ps| - 1].typ.kind)
  {
    var init := ps[..|ps| - 1];
    forall i | 0 <= i < |init|
      ensures IsTypeKind(init[i].typ.kind)
    {
      assert init[i] == ps[i];
    }
  }

  /** Parameters separated by commas: the last one after all the others, each with its comma. */
  lemma {:induction false} ParamsSplit(ps: seq<Param>)
    requires ps != []
    ensures UParams(ps) == UParamsRest(ps[..|ps| - 1]) + UParam(ps[|ps| - 1])
    ensures |UParamsRest(ps[..|ps| - 1])| == 3 * (|ps| - 1)
  {
    ParamsRestLength(ps[..|ps| - 1]);
  }

  lemma {:induction false} ParamsLength(ps: seq<Param>)
    ensures |UParams(ps)| == if ps == [] then 0 else 3 * |ps| - 1
  {
    if ps != [] {
      ParamsSplit(ps);
    }
  }

  /** What compileParameterList reads between the parentheses contains no `)`. */
  lemma {:induction false} ParamsAvoid(ps: seq<Param>)
    requires TypedParams(ps)
    ensures Avoids(UParams(ps), {TokenRParen})
  {
    if ps != [] {
      var init := ps[..|ps| - 1];
      TypedInit(ps);
      ParamsRestAvoids(init);
      ParamsSplit(ps);
      AvoidsConcat(UParamsRest(init), UParam(ps[|ps| - 1]), {TokenRParen});
    }
  }

  /** The last token of a non-empty parameter list is a name. */
  lemma {:induction false} ParamsLast(ps: seq<Param>)
    requires ps != []
    ensures |UParams(ps)| > 0 && UParams(ps)[|UParams(ps)| - 1].kind == TokenIdentifier
  {
    ParamsSplit(ps);
    var u := UParams(ps);
    assert u[|u| - 1] == UParam(ps[|ps| - 1])[1];
  }

  lemma {:induction false} ParamUnique(p1: Param, p2: Param)
    requires UParam(p1) == UParam(p2) && IsTypeKind(p1.typ.kind)
    ensures p1 == p2
  {
    assert UParam(p1)[0] == UParam(p2)[0] && UParam(p1)[1] == UParam(p2)[1];
    ShapeFixes(p1.typ, p2.typ);
  }

  lemma {:induction false} ParamsRestUnique(ps1: seq<Param>, ps2: seq<Param>)
    requires UParamsRest(ps1) == UParamsRest(ps2) && TypedParams(ps1)
    ensures ps1 == ps2
  {
    ParamsRestSnoc();
    forall x: Param, y: Param | Typed(x) && ParamItem(x) == ParamItem(y)
      ensures x == y
    {
      SplitEq(UParam(x), [Mark(TokenComma)], UParam(y), [Mark(TokenComma)]);
      ParamUnique(x, y);
    }
    SnocUnique(UParamsRest, ParamItem, Typed, 3, ps1, ps2);
  }

  lemma {:induction false} ParamsUnique(ps1: seq<Param>, ps2: seq<Param>)
    requires UParams(ps1) == UParams(ps2) && TypedParams(ps1)
    ensures ps1 == ps2
  {
    ParamsLength(ps1);
    ParamsLength(ps2);
    if ps1 != [] {
      ParamsStep(ps1, ps2);
    }
  }

  lemma {:induction false} ParamsStep(ps1: seq<Param>, ps2: seq<Param>)
    requires ps1 != [] && ps2 != []
    requires UParams(ps1) == UParams(ps2) && TypedParams(ps1)
    ensures ps1 == ps2
  {
    var i1, i2 := ps1[..|ps1| - 1], ps2[..|ps2| - 1];
    var l1, l2 := ps1[|ps1| - 1], ps2[|ps2| - 1];
    ParamsSplit(ps1);
    ParamsSplit(ps2);
    TypedInit(ps1);
    LastParamUnique(i1, l1, i2, l2);
    SnocSplit(ps1);
    SnocSplit(ps2);
  }

  /** The parameters before the last, each with its comma, then the last. */
  lemma {:induction false} LastParamUnique(i1: seq<Param>, l1: Param, i2: seq<Param>, l2: Param)
    requires UParamsRest(i1) + UParam(l1) == UParamsRest(i2) + UParam(l2)
    requires TypedParams(i1) && Typed(l1)
    ensures i1 == i2 && l1 == l2
  {
    ParamsRestLength(i1);
    ParamsRestLength(i2);
    SplitEq(UParamsRest(i1), UParam(l1), UParamsRest(i2), UParam(l2));
    ParamsRestUnique(i1, i2);
    ParamUnique(l1, l2);
  }

  function TrailingComma(tc: bool): seq<Tok> {
    if tc then [Mark(TokenComma)] else []
  }

  /** `( parameters [,] )` regrouped from the front. */
  lemma {:induction false} ParameterListLayout(ps: seq<Param>, tc: bool, q: seq<Tok>)
    ensures UParameterList(ps, tc) + q == [Mark(TokenLParen)] + ((UParams(ps) + TrailingComma(tc)) + ([Mark(TokenRParen)] + q))
  {
    var t := UParams(ps) + TrailingComma(tc);
    assert UParameterList(ps, tc) == [Mark(TokenLParen)] + t + [Mark(TokenRParen)];
    Wrap(Mark(TokenLParen), t, Mark(TokenRParen), q);
  }

  lemma {:induction false} InsideAvoids(ps: seq<Param>, tc: bool)
    requires TypedParams(ps)
    ensures Avoids(UParams(ps) + TrailingComma(tc), {TokenRParen})
  {
    ParamsAvoid(ps);
    AvoidsConcat(UParams(ps), TrailingComma(tc), {TokenRParen});
  }

  /** `( parameters [,] )` and what follows it. */
  lemma {:induction false} ParameterListUnique(ps1: seq<Param>, tc1: bool, ps2: seq<Param>, tc2: bool, q1: seq<Tok>, q2: seq<Tok>)
    requires UParameterList(ps1, tc1) + q1 == UParameterList(ps2, tc2) + q2
    requires TypedParams(ps1) && TypedParams(ps2) && (tc1 ==> |ps1| > 0) && (tc2 ==> |ps2| > 0)
    ensures ps1 == ps2 && tc1 == tc2 && q1 == q2
  {
    var t1, t2 := UParams(ps1) + TrailingComma(tc1), UParams(ps2) + TrailingComma(tc2);
    var e1, e2 := [Mark(TokenRParen)] + q1, [Mark(TokenRParen)] + q2;
    ParameterListLayout(ps1, tc1, q1);
    ParameterListLayout(ps2, tc2, q2);
    SplitEq([Mark(TokenLParen)], t1 + e1, [Mark(TokenLParen)], t2 + e2);
    InsideAvoids(ps1, tc1);
    InsideAvoids(ps2, tc2);
    SplitAt({TokenRParen}, t1, e1, t2, e2);
    SplitEq([Mark(TokenRParen)], q1, [Mark(TokenRParen)], q2);
    InsideUnique(ps1, tc1, ps2, tc2);
  }

  /** What lies between the parentheses: a trailing comma is the last thing read exactly when there is one. */
  lemma {:induction false} InsideUnique(ps1: seq<Param>, tc1: bool, ps2: seq<Param>, tc2: bool)
    requires UParams(ps1) + TrailingComma(tc1) == UParams(ps2) + TrailingComma(tc2)
    requires TypedParams(ps1) && (tc1 ==> |ps1| > 0) && (tc2 ==> |ps2| > 0)
    ensures ps1 == ps2 && tc1 == tc2
  {
    var t1, t2 := UParams(ps1) + TrailingComma(tc1), UParams(ps2) + TrailingComma(tc2);
    ParamsLength(ps1);
    ParamsLength(ps2);
    if ps1 != [] {
      ParamsLast(ps1);
    }
    if ps2 != [] {
      ParamsLast(ps2);
    }
    assert tc1 ==> |t1| > 0 && t1[|t1| - 1].kind == TokenComma;
    assert tc2 ==> |t2| > 0 && t2[|t2| - 1].kind == TokenComma;
    assert !tc1 ==> t1 == UParams(ps1);
    assert !tc2 ==> t2 == UParams(ps2);
    if tc1 && tc2 {
      SplitEq(UParams(ps1), TrailingComma(tc1), UParams(ps2), TrailingComma(tc2));
      ParamsUnique(ps1, ps2);
    } else if !tc1 && !tc2 {
      ParamsUnique(ps1, ps2);
    }
  }

  // ---------------------------------------------------------------------------
  // Subroutines

  lemma StmtKeywordNotVar(s: Stmt)
    ensures StmtKeyword(s) != TokenVar && StmtKeyword(s) != TokenRBrace
  {
  }

  /** A subroutine regrouped from the front: signature head, parameter list, `{`, locals, statements, `}`. */
  lemma {:induction false} SubroutineLayout(s: Subroutine, q: seq<Tok>)
    ensures USubroutine(s) + q ==
      [Shape(s.kind), Shape(s.ret), Ident(s.name)] +
      (UParameterList(s.params, s.trailingComma) + ([Mark(TokenLBrace)] + (UVarDecs(s.locals) + (UStmts(s.body) + ([Mark(TokenRBrace)] + q)))))
  {
    var h := [Shape(s.kind), Shape(s.ret), Ident(s.name)];
    var p, l, v, b, c := UParameterList(s.params, s.trailingComma), [Mark(TokenLBrace)], UVarDecs(s.locals), UStmts(s.body), [Mark(TokenRBrace)];
    assert USubroutine(s) == h + p + l + v + b + c;
    Assoc6(h, p, l, v, b, c, q);
    Assoc5(p, l, v, b, c, q);
    Assoc4(l, v, b, c, q);
    Assoc3(v, b, c, q);
    Assoc(b, c, q);
  }

  lemma {:induction false} SubroutineUnique(s1: Subroutine, s2: Subroutine, q1: seq<Tok>, q2: seq<Tok>)
    requires USubroutine(s1) + q1 == USubroutine(s2) + q2
    requires WfSubroutine(s1) && WfSubroutine(s2)
    ensures s1 == s2 && q1 == q2
  {
    var c1, c2 := [Mark(TokenRBrace)] + q1, [Mark(TokenRBrace)] + q2;
    var b1, b2 := UStmts(s1.body) + c1, UStmts(s2.body) + c2;
    var v1, v2 := UVarDecs(s1.locals) + b1, UVarDecs(s2.locals) + b2;
    var l1, l2 := [Mark(TokenLBrace)] + v1, [Mark(TokenLBrace)] + v2;
    SubroutineLayout(s1, q1);
    SubroutineLayout(s2, q2);
    var h1, h2 := [Shape(s1.kind), Shape(s1.ret), Ident(s1.name)], [Shape(s2.kind), Shape(s2.ret), Ident(s2.name)];
    SplitEq(h1, UParameterList(s1.params, s1.trailingComma) + l1, h2, UParameterList(s2.params, s2.trailingComma) + l2);
    assert h1[0] == h2[0] && h1[1] == h2[1] && h1[2] == h2[2];
    ShapeFixes(s1.kind, s2.kind);
    ParameterListUnique(s1.params, s1.trailingComma, s2.params, s2.trailingComma, l1, l2);
    SplitEq([Mark(TokenLBrace)], v1, [Mark(TokenLBrace)], v2);
    StmtsHead(s1.body, c1);
    StmtsHead(s2.body, c2);
    if s1.body != [] {
      StmtKeywordNotVar(s1.body[0]);
    }
    if s2.body != [] {
      StmtKeywordNotVar(s2.body[0]);
    }
    VarDecsUnique(s1.locals, s2.locals, b1, b2);
    StmtsUnique(s1.body, s2.body, c1, c2);
    SplitEq([Mark(TokenRBrace)], q1, [Mark(TokenRBrace)], q2);
  }

  lemma {:induction false} SubroutineHead(s: Subroutine, r: seq<Tok>)
    ensures FirstKind(USubroutine(s) + r) == s.kind.kind
  {
    SubroutineLayout(s, r);
  }

  lemma {:induction false} SubroutinesCons(ss: seq<Subroutine>)
    requires ss != []
    ensures USubroutines(ss) == USubroutine(ss[0]) + USubroutines(ss[1..])
  {
    forall ys: seq<Subroutine>, y: Subroutine
      ensures USubroutines(ys + [y]) == USubroutines(ys) + USubroutine(y)
    {
      assert (ys + [y])[..|ys|] == ys;
    }
    SnocCons(USubroutines, USubroutine, ss);
  }

  /** What a run of subroutines starts with. */
  lemma {:induction false} SubroutinesFirst(ss: seq<Subroutine>, r: seq<Tok>)
    ensures FirstKind(USubroutines(ss) + r) == (if ss == [] then FirstKind(r) else ss[0].kind.kind)
    ensures ss == [] ==> USubroutines(ss) + r == r
  {
    if ss != [] {
      SubroutinesCons(ss);
      Assoc(USubroutine(ss[0]), USubroutines(ss[1..]), r);
      SubroutineHead(ss[0], USubroutines(ss[1..]) + r);
    } else {
      assert USubroutines(ss) + r == r;
    }
  }

  lemma {:induction false} SubroutinesTail(ss: seq<Subroutine>, r: seq<Tok>)
    requires ss != []
    ensures USubroutines(ss) + r == USubroutine(ss[0]) + (USubroutines(ss[1..]) + r)
    ensures WfSubroutines(ss) ==> WfSubroutine(ss[0]) && WfSubroutines(ss[1..])
  {
    SubroutinesCons(ss);
    Assoc(USubroutine(ss[0]), USubroutines(ss[1..]), r);
    if WfSubroutines(ss) {
      forall i | 0 <= i < |ss[1..]|
        ensures WfSubroutine(ss[1..][i])
      {
        assert ss[1..][i] == ss[i + 1];
      }
    }
  }

  /** A token that starts a subroutine. */
  predicate StartsSubroutine(k: Kind) {
    k == TokenConstructor || k == TokenFunction || k == TokenMethod
  }

  /** The first subroutine of a well-formed run starts with its kind. */
  lemma {:induction false} SubroutinesStart(ss: seq<Subroutine>, r: seq<Tok>)
    requires WfSubroutines(ss)
    ensures ss != [] ==> StartsSubroutine(FirstKind(USubroutines(ss) + r))
    ensures ss == [] ==> FirstKind(USubroutines(ss) + r) == FirstKind(r) && USubroutines(ss) + r == r
  {
    SubroutinesFirst(ss, r);
    if ss != [] {
      assert WfSubroutine(ss[0]);
    }
  }

  /** The subroutines compileSubroutine reads, up to the first token that starts none. */
  lemma {:induction false} SubroutinesUnique(ss1: seq<Subroutine>, ss2: seq<Subroutine>, r1: seq<Tok>, r2: seq<Tok>)
    requires USubroutines(ss1) + r1 == USubroutines(ss2) + r2
    requires WfSubroutines(ss1) && WfSubroutines(ss2)
    requires !StartsSubroutine(FirstKind(r1)) && !StartsSubroutine(FirstKind(r2))
    ensures ss1 == ss2 && r1 == r2
    decreases |ss1|, 1
  {
    SubroutinesStart(ss1, r1);
    SubroutinesStart(ss2, r2);
    if ss1 != [] && ss2 != [] {
      SubroutinesTail(ss1, r1);
      SubroutinesTail(ss2, r2);
      SubroutinesStep(ss1, ss2, r1, r2);
    }
  }

  lemma {:induction false} SubroutinesStep(ss1: seq<Subroutine>, ss2: seq<Subroutine>, r1: seq<Tok>, r2: seq<Tok>)
    requires ss1 != [] && ss2 != []
    requires USubroutine(ss1[0]) + (USubroutines(ss1[1..]) + r1) == USubroutine(ss2[0]) + (USubroutines(ss2[1..]) + r2)
    requires WfSubroutine(ss1[0]) && WfSubroutines(ss1[1..]) && WfSubroutine(ss2[0]) && WfSubroutines(ss2[1..])
    requires !StartsSubroutine(FirstKind(r1)) && !StartsSubroutine(FirstKind(r2))
    ensures ss1 == ss2 && r1 == r2
    decreases |ss1|, 0
  {
    SubroutineUnique(ss1[0], ss2[0], USubroutines(ss1[1..]) + r1, USubroutines(ss2[1..]) + r2);
    SubroutinesUnique(ss1[1..], ss2[1..], r1, r2);
    ConsSplit(ss1);
    ConsSplit(ss2);
  }

  // ---------------------------------------------------------------------------
  // Classes

  /**
    The class layout is unambiguous: two well-formed classes that read the
    same tokens are the same class, so the tree compileClass reads, and the
    code generated from it, is fixed by the tokens it consumes.
  */
  lemma {:induction false} ClassLayoutUnique(c1: Class, c2: Class)
    requires UClass(c1) == UClass(c2)
    requires WfClass(c1) && WfClass(c2)
    ensures c1 == c2
  {
    var h1, h2 := [Mark(TokenClass), Ident(c1.name), Mark(TokenLBrace)], [Mark(TokenClass), Ident(c2.name), Mark(TokenLBrace)];
    var e := [Mark(TokenRBrace)];
    var s1, s2 := USubroutines(c1.subs) + e, USubroutines(c2.subs) + e;
    ClassLayout(c1);
    ClassLayout(c2);
    SplitEq(h1, UClassVarDecs(c1.vars) + s1, h2, UClassVarDecs(c2.vars) + s2);
    assert h1[1] == h2[1];
    SubroutinesStart(c1.subs, e);
    SubroutinesStart(c2.subs, e);
    ClassVarDecsUnique(c1.vars, c2.vars, s1, s2);
    SubroutinesUnique(c1.subs, c2.subs, e, e);
  }

  /** A class regrouped from the front: `class Name {`, the variables, the subroutines, `}`. */
  lemma {:induction false} ClassLayout(c: Class)
    ensures UClass(c) == [Mark(TokenClass), Ident(c.name), Mark(TokenLBrace)] + (UClassVarDecs(c.vars) + (USubroutines(c.subs) + [Mark(TokenRBrace)]))
  {
    var h, v, u, e := [Mark(TokenClass), Ident(c.name), Mark(TokenLBrace)], UClassVarDecs(c.vars), USubroutines(c.subs), [Mark(TokenRBrace)];
    Assoc3(h, v, u, e);
    Assoc(v, u, e);
  }
}
