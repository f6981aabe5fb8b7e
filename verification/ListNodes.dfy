/** src/expr.cpp: the constructors that append their argument slots in a loop. */
module ListNodes {
  import opened Basics
  import opened Precedence
  import opened Syntax
  import opened Node
  import opened Text
  import opened Render
  import opened Identifier

  /** Argument slots behind at least one other: each behind a comma. */
  function MoreParts(es: List<Expr>): seq<Part> {
    if es.Nil? then [] else [Text(", ")] + ListParts(es)
  }

  lemma {:induction false} MoreStep(parts: seq<Part>, es: List<Expr>)
    requires es.Cons?
    ensures var slot := Child(Build(es.head), kExtract);
            parts + ListParts(es) == (parts + [slot]) + MoreParts(es.tail) &&
            parts + MoreParts(es) == (parts + [Text(", ")] + [slot]) + MoreParts(es.tail)
  {
    FirstArg(es);
    var slot := Child(Build(es.head), kExtract);
    Regroup(parts, [slot], MoreParts(es.tail));
    Regroup(parts, [Text(", ")], [slot] + MoreParts(es.tail));
    Regroup(parts + [Text(", ")], [slot], MoreParts(es.tail));
  }

  lemma {:induction false} FirstArg(es: List<Expr>)
    requires es.Cons?
    ensures ListParts(es) == [Child(Build(es.head), kExtract)] + MoreParts(es.tail)
  {
  }

  /** The loop shared by both: slots at kExtract, a comma in front of all but the first. */
  method AppendArgs(head: seq<Part>, args: List<Expr>) returns (parts: seq<Part>)
    ensures parts == head + ListParts(args)
  {
    parts := head;
    var first := true;
    var rest := args;
    while rest.Cons?
      invariant first ==> rest == args && parts == head
      invariant !first ==> parts + MoreParts(rest) == head + ListParts(args)
      decreases rest
    {
      MoreStep(parts, rest);
      if !first {
        parts := parts + [Text(", ")];
      }
      parts := parts + [Child(Build(rest.head), kExtract)];
      first := false;
      rest := rest.tail;
    }
    assert MoreParts(Nil) == [] && parts + [] == parts;
  }

  /** The tree of a call of the function with these dotted names. */
  function CallOf(parts: seq<string>, distinct: bool, args: List<Expr>): Expr
    requires parts != []
  {
    Call(PathOf(parts[..|parts| - 1]), parts[|parts| - 1], distinct, args)
  }

  lemma {:induction false} CallName(parts: seq<string>)
    requires parts != []
    ensures QualText(PathOf(parts[..|parts| - 1])) + parts[|parts| - 1] == DotJoin(parts)
    decreases |parts|
  {
    var n := |parts| - 1;
    var quals := parts[..n];
    if n > 0 {
      CallName(parts[1..]);
      assert quals[1..] == parts[1..][..n - 1] && quals[0] == parts[0];
      Assoc(parts[0], "." + QualText(PathOf(quals[1..])), parts[n]);
      Assoc(".", QualText(PathOf(quals[1..])), parts[n]);
    }
  }

  method BuildCallNode(parts: seq<string>, name: string, distinct: bool, args: List<Expr>) returns (n: Node)
    requires Names(parts, name)
    ensures n == Build(CallOf(parts, distinct, args))
  {
    var prefix := if distinct then "DISTINCT " else "";
    var head := [Text(name + ("(" + prefix))];
    CallName(parts);
    Assoc(QualText(PathOf(parts[..|parts| - 1])), parts[|parts| - 1], "(" + prefix);
    var list := AppendArgs(head, args);
    list := list + [Text(")")];
    n := MakeNode(kSymbol, list);
  }

  /** Expr::Call; None where the name is rejected. */
  method MakeCall(name: string, args: List<Expr>) returns (r: Option<Node>)
    ensures r.Some? <==> exists parts :: Names(parts, name)
    ensures r.Some? ==> r.value == Build(CallOf(PartsOf(name, 0), false, args))
  {
    var ok := ValidateIdentifier(name);
    if !ok {
      return None;
    }
    AcceptedParts(name);
    var n := BuildCallNode(PartsOf(name, 0), name, false, args);
    r := Some(n);
  }

  /** Expr::CallDistinct; None where the name or an empty list is rejected. */
  method MakeCallDistinct(name: string, args: List<Expr>) returns (r: Option<Node>)
    ensures r.Some? <==> args.Cons? && exists parts :: Names(parts, name)
    ensures r.Some? ==> r.value == Build(CallOf(PartsOf(name, 0), true, args))
  {
    var ok := ValidateIdentifier(name);
    if !ok || args.Nil? {
      return None;
    }
    AcceptedParts(name);
    var n := BuildCallNode(PartsOf(name, 0), name, true, args);
    r := Some(n);
  }

  /** None where an empty list is rejected. */
  method BuildInListNode(self: Expr, neg: bool, values: List<Expr>) returns (r: Option<Node>)
    ensures r == if values.Nil? then None else Some(Build(Suffix(InOp(neg), self, Exprs(values))))
  {
    if values.Nil? {
      return None;
    }
    var connector := if neg then " NOT IN " else " IN ";
    var parts := AppendArgs([Child(Build(self), kBetween), Text(connector), Text("(")], values);
    parts := parts + [Text(")")];
    var n := MakeNode(kBetween, parts);
    r := Some(n);
  }
}
