/** `src/semantic.c`: the table of primitive types, lookup by name, and the
    walk over the syntax tree that checks expressions.

    `AnalyseExpression` has no `return` at its end, and reading what it
    yields there is undefined in C. The model fixes that value as the
    parameter `fallOff`, one function of the expression, so two analyses of
    the same node agree; the C code promises no such thing. */
module Semantic {

  import opened Wrappers
  import opened Tokens
  import opened Types
  import opened Arrays

  /** The node kinds the analysis dispatches on. A block's children come out
      of an `Array`, whose slots may hold NULL; every other kind (literals,
      declarations, assignments) is `Other`. */
  datatype Node =
    | Block(nodes: seq<Option<Node>>)
    | BinaryExpression(left: Node, right: Node)
    | VariableReference(id: Token)
    | FunctionCall(id: Token)
    | Other

  /** A message the analysis reports. */
  datatype Diagnostic =
    | NullNode
    | ConflictingTypes(left: string, right: string)

  /** The type an expression gets, with the diagnostics reported on the way. */
  datatype Analysis = Analysis(ty: Option<Type>, errors: seq<Diagnostic>)

  /** `SemanticAnalysis_AnalyseExpression`. The "right" operand is analysed
      from `left` again, as the C code does. */
  function AnalyseExpression(fallOff: Node -> Option<Type>, expr: Node): (r: Analysis)
    ensures r.ty.Some? ==> r.ty == fallOff(expr)
    ensures !expr.BinaryExpression? ==> r == Analysis(fallOff(expr), [])
    decreases expr
  {
    if expr.BinaryExpression? then
      var left := AnalyseExpression(fallOff, expr.left);
      if left.ty.None? then Analysis(None, left.errors)
      else
        var right := AnalyseExpression(fallOff, expr.left);
        var errors := left.errors + right.errors;
        if right.ty.None? then Analysis(None, errors)
        else if !Compare(left.ty.value, right.ty.value) then
          Analysis(None, errors + [ConflictingTypes(Identifier(left.ty), Identifier(right.ty))])
        else Analysis(fallOff(expr), errors)
    else Analysis(fallOff(expr), [])
  }

  /** The conflict check compares the left type with itself, so it never
      reports anything. */
  lemma {:induction false} ExpressionNeverConflicts(fallOff: Node -> Option<Type>, expr: Node)
    ensures AnalyseExpression(fallOff, expr).errors == []
    decreases expr
  {
    if expr.BinaryExpression? {
      ExpressionNeverConflicts(fallOff, expr.left);
      var left := AnalyseExpression(fallOff, expr.left);
      if left.ty.Some? {
        CompareEquivalence(left.ty.value, left.ty.value, left.ty.value);
      }
    }
  }

  /** A binary expression fails exactly when its left operand does; the
      right operand takes no part, and otherwise control falls off the end. */
  lemma BinaryOutcome(fallOff: Node -> Option<Type>, left: Node, right: Node)
    ensures var r := AnalyseExpression(fallOff, BinaryExpression(left, right));
      r.ty == if AnalyseExpression(fallOff, left).ty.None? then None else fallOff(BinaryExpression(left, right))
  {
    var l := AnalyseExpression(fallOff, left);
    if l.ty.Some? {
      CompareEquivalence(l.ty.value, l.ty.value, l.ty.value);
    }
  }

  /** Changing the right operand changes nothing but the fall-off value's argument. */
  lemma RightNeverAnalysed(fallOff: Node -> Option<Type>, left: Node, right1: Node, right2: Node)
    requires fallOff(BinaryExpression(left, right1)) == fallOff(BinaryExpression(left, right2))
    ensures AnalyseExpression(fallOff, BinaryExpression(left, right1)) == AnalyseExpression(fallOff, BinaryExpression(left, right2))
  {
  }

  /** Concatenation of a sequence of diagnostic lists. */
  function Concat(ds: seq<seq<Diagnostic>>): (r: seq<Diagnostic>)
  {
    if |ds| == 0 then [] else Concat(ds[..|ds| - 1]) + ds[|ds| - 1]
  }

  /** A node whose kind is checked as an expression. */
  predicate IsExpression(n: Node)
  {
    n.BinaryExpression? || n.VariableReference? || n.FunctionCall?
  }

  /** What `SemanticAnalysis_AnalyseNode` returns for `n` and reports on
      the way: NULL fails; a block analyses every child in order, keeps the
      diagnostics and ignores the results; an expression passes exactly when
      it gets a type; anything else passes. */
  function NodeAnalysis(fallOff: Node -> Option<Type>, n: Option<Node>): (r: (Status, seq<Diagnostic>))
    decreases n
  {
    match n
    case None => (FAIL, [NullNode])
    case Some(Block(nodes)) =>
      (OK, Concat(seq(|nodes|, k requires 0 <= k < |nodes| => NodeAnalysis(fallOff, nodes[k]).1)))
    case Some(e) =>
      if IsExpression(e) then
        var a := AnalyseExpression(fallOff, e);
        (if a.ty.Some? then OK else FAIL, a.errors)
      else (OK, [])
  }

  /** Only a NULL node reports anything, and a block passes whatever its
      children do. */
  lemma NodeOutcomes(fallOff: Node -> Option<Type>, n: Option<Node>)
    ensures n.None? ==> NodeAnalysis(fallOff, n) == (FAIL, [NullNode])
    ensures n.Some? && n.value.Block? ==> NodeAnalysis(fallOff, n).0 == OK
    ensures n.Some? && IsExpression(n.value) ==>
      (NodeAnalysis(fallOff, n).0 == OK <==> AnalyseExpression(fallOff, n.value).ty.Some?)
    ensures n.Some? && !n.value.Block? && !IsExpression(n.value) ==> NodeAnalysis(fallOff, n) == (OK, [])
  {
  }

  /** A block holding a NULL child still passes and goes on to the children
      after it: there is no short-circuit. */
  lemma BlockDoesNotShortCircuit(fallOff: Node -> Option<Type>, rest: seq<Option<Node>>)
    ensures NodeAnalysis(fallOff, Some(Block([None] + rest))).0 == OK
    ensures NodeAnalysis(fallOff, Some(Block([None] + rest))).1
      == [NullNode] + NodeAnalysis(fallOff, Some(Block(rest))).1
  {
    var nodes := [None] + rest;
    var ds := seq(|nodes|, k requires 0 <= k < |nodes| => NodeAnalysis(fallOff, nodes[k]).1);
    var es := seq(|rest|, k requires 0 <= k < |rest| => NodeAnalysis(fallOff, rest[k]).1);
    assert ds == [[NullNode]] + es;
    ConcatPrepend([NullNode], es);
  }

  lemma {:induction false} ConcatPrepend(d: seq<Diagnostic>, ds: seq<seq<Diagnostic>>)
    ensures Concat([d] + ds) == d + Concat(ds)
    decreases |ds|
  {
    if |ds| > 0 {
      var init := ds[..|ds| - 1];
      assert ([d] + ds)[..|ds|] == [d] + init;
      ConcatPrepend(d, init);
    } else {
      assert [d] + ds == [d];
      assert [d][..0] == [];
    }
  }

  /** The type table first in line whose identifier is `name`, if any. */
  function Lookup(table: seq<Type>, name: string): (r: Option<Type>)
  {
    if |table| == 0 then None
    else if Identifier(Some(table[0])) == name then Some(table[0])
    else Lookup(table[1..], name)
  }

  /** `Lookup` finds the first entry whose identifier is `name`, and nothing
      when no entry has that identifier. */
  lemma {:induction false} LookupFirst(table: seq<Type>, name: string)
    ensures Lookup(table, name).None? <==> forall k :: 0 <= k < |table| ==> Identifier(Some(table[k])) != name
    ensures Lookup(table, name).Some? ==>
      (exists k :: 0 <= k < |table| && table[k] == Lookup(table, name).value
         && Identifier(Some(table[k])) == name
         && forall m :: 0 <= m < k ==> Identifier(Some(table[m])) != name)
    decreases |table|
  {
    if |table| > 0 && Identifier(Some(table[0])) != name {
      LookupFirst(table[1..], name);
      if Lookup(table, name).Some? {
        var k :| 0 <= k < |table[1..]| && table[1..][k] == Lookup(table, name).value
          && Identifier(Some(table[1..][k])) == name
          && forall m :: 0 <= m < k ==> Identifier(Some(table[1..][m])) != name;
        assert table[k + 1] == table[1..][k];
        assert forall m :: 0 <= m < k + 1 ==> Identifier(Some(table[m])) != name by {
          forall m | 0 <= m < k + 1
            ensures Identifier(Some(table[m])) != name
          {
            if m > 0 {
              assert table[m] == table[1..][m - 1];
            }
          }
        }
      } else {
        forall k | 0 <= k < |table|
          ensures Identifier(Some(table[k])) != name
        {
          if k > 0 {
            assert table[k] == table[1..][k - 1];
          }
        }
      }
    }
  }

  /** The four primitive types `SemanticAnalysis_Create` pushes, narrowest first. */
  function InitialTable(): (r: seq<Type>)
  {
    [Primitive(Byte), Primitive(Word), Primitive(Dword), Primitive(Qword)]
  }

  /** The initial table holds the four primitives in increasing width. */
  lemma InitialTableOrdered()
    ensures |InitialTable()| == 4
    ensures forall k :: 0 <= k < 4 ==> InitialTable()[k].Primitive?
    ensures forall k, m :: 0 <= k < m < 4 ==> Quantify(InitialTable()[k]) < Quantify(InitialTable()[m])
  {
  }

  /** With the initial table, a lookup succeeds exactly for the four width
      names, and then yields the primitive of that name. */
  lemma InitialLookup(name: string)
    ensures Lookup(InitialTable(), name).Some? <==> name in ["byte", "word", "dword", "qword"]
    ensures Lookup(InitialTable(), name).Some? ==>
      Lookup(InitialTable(), name).value.Primitive? && PrimitiveTypeString(Lookup(InitialTable(), name).value.width) == name
  {
    var t := InitialTable();
    var t1, t2, t3 := t[1..], t[2..], t[3..];
    assert t1[1..] == t2 && t2[1..] == t3 && t3[1..] == [];
    assert Lookup(t3, name) == if name == "qword" then Some(Primitive(Qword)) else None;
    assert Lookup(t2, name) == if name == "dword" then Some(Primitive(Dword)) else Lookup(t3, name);
    assert Lookup(t1, name) == if name == "word" then Some(Primitive(Word)) else Lookup(t2, name);
    assert Lookup(t, name) == if name == "byte" then Some(Primitive(Byte)) else Lookup(t1, name);
  }

  /** Printing a primitive with `Type_Identifier` and looking the name up in
      the initial table gives back that primitive. */
  lemma PrimitiveNameRoundTrip(p: PrimitiveType)
    ensures Lookup(InitialTable(), Identifier(Some(Primitive(p)))) == Some(Primitive(p))
  {
    var name := Identifier(Some(Primitive(p)));
    InitialLookup(name);
    var q := Lookup(InitialTable(), name).value.width;
    PrimitiveTypeStringInjective(p, q);
  }

  class SemanticAnalysis {
    const program: Node
    var types: Array<Type>

    ghost predicate Valid()
      reads this, types
    {
      types.Valid()
    }

    /** `SemanticAnalysis_Create` */
    constructor (program: Node)
      ensures Valid() && fresh(types)
      ensures this.program == program
      ensures types.base == InitialTable()
    {
      this.program := program;
      var table := new Array<Type>();
      table.Push(Primitive(Byte));
      table.Push(Primitive(Word));
      table.Push(Primitive(Dword));
      table.Push(Primitive(Qword));
      types := table;
    }

    /** `SemanticAnalysis_FindType`: an index loop with an early return; the
        table is only read. */
    method FindType(id: Token) returns (r: Option<Type>)
      requires Valid()
      ensures r == Lookup(types.base, id.value)
    {
      var i := 0;
      while i < types.length
        invariant i <= types.length
        invariant Lookup(types.base, id.value) == Lookup(types.base[i..], id.value)
      {
        var t := types.At(i);
        assert types.base[i..][1..] == types.base[i + 1..];
        if Identifier(t) == id.value {
          return t;
        }
        i := i + 1;
      }
      return None;
    }

    /** `SemanticAnalysis_AnalyseNode`: a NULL node fails, a block's
        children are each analysed in turn with their results dropped, and
        an expression passes when it gets a type. */
    method AnalyseNode(fallOff: Node -> Option<Type>, n: Option<Node>) returns (status: Status, errors: seq<Diagnostic>)
      ensures (status, errors) == NodeAnalysis(fallOff, n)
      decreases n
    {
      if n.None? {
        return FAIL, [NullNode];
      }
      var node := n.value;
      errors := [];
      if node.Block? {
        var nodes := node.nodes;
        ghost var ds := seq(|nodes|, k requires 0 <= k < |nodes| => NodeAnalysis(fallOff, nodes[k]).1);
        var i := 0;
        while i < |nodes|
          invariant i <= |nodes|
          invariant errors == Concat(ds[..i])
        {
          var _, e := AnalyseNode(fallOff, nodes[i]);
          assert ds[..i + 1][..i] == ds[..i];
          errors := errors + e;
          i := i + 1;
        }
        assert ds[..i] == ds;
      }
      if IsExpression(node) {
        var a := AnalyseExpression(fallOff, node);
        return if a.ty.Some? then OK else FAIL, a.errors;
      }
      return OK, errors;
    }
  }
}
