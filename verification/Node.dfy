/** src/impl/node.cpp: the immutable render tree, its size bookkeeping and its renderer. */
module Node {
  import opened Precedence

  /** A literal fragment, or a child embedded at the precedence of its slot. */
  datatype Part = Text(s: string) | Child(node: Node, context: Prec)

  datatype Node = Node(precedence: Prec, parts: seq<Part>, size: nat)

  predicate NeedsParens(child: Node, context: Prec) {
    child.precedence >= context
  }

  function PartSize(part: Part): nat {
    match part
    case Text(s) => |s|
    case Child(n, context) => n.size + if NeedsParens(n, context) then 2 else 0
  }

  function SizeOf(parts: seq<Part>): nat {
    if parts == [] then 0 else PartSize(parts[0]) + SizeOf(parts[1..])
  }

  // ---- what a tree renders to, in front of a continuation

  function PartText(part: Part, k: string): string
    decreases part
  {
    match part
    case Text(s) => s + k
    case Child(n, context) =>
      if NeedsParens(n, context) then "(" + PartsText(n.parts, ")" + k) else PartsText(n.parts, k)
  }

  function PartsText(parts: seq<Part>, k: string): string
    decreases parts
  {
    if parts == [] then k else PartText(parts[0], PartsText(parts[1..], k))
  }

  /** The text of a node with no brackets around it. */
  function NodeText(n: Node): string {
    PartsText(n.parts, "")
  }

  function TextIn(n: Node, context: Prec): string {
    PartText(Child(n, context), "")
  }

  /** Every node records the exact size of its parts. */
  predicate Sized(n: Node)
    decreases n
  {
    n.size == SizeOf(n.parts) &&
    forall i :: 0 <= i < |n.parts| ==> n.parts[i].Child? ==> Sized(n.parts[i].node)
  }

  predicate PartSized(part: Part) {
    part.Child? ==> Sized(part.node)
  }

  predicate AllSized(parts: seq<Part>) {
    forall i :: 0 <= i < |parts| ==> PartSized(parts[i])
  }

  lemma {:induction false} PartAppends(part: Part, k: string)
    ensures PartText(part, k) == PartText(part, "") + k
    decreases part
  {
    if part.Child? {
      var n := part.node;
      PartsAppend(n.parts, k);
      if NeedsParens(n, part.context) {
        PartsAppend(n.parts, ")" + k);
        PartsAppend(n.parts, ")" + "");
      }
    }
  }

  /** A continuation is appended unchanged. */
  lemma {:induction false} PartsAppend(parts: seq<Part>, k: string)
    ensures PartsText(parts, k) == PartsText(parts, "") + k
    decreases parts
  {
    if parts != [] {
      PartAppends(parts[0], PartsText(parts[1..], k));
      PartAppends(parts[0], PartsText(parts[1..], ""));
      PartsAppend(parts[1..], k);
    }
  }

  lemma {:induction false} PartsConcat(a: seq<Part>, b: seq<Part>, k: string)
    ensures PartsText(a + b, k) == PartsText(a, PartsText(b, k))
    decreases a
  {
    if a == [] {
      assert a + b == b;
    } else {
      assert (a + b)[1..] == a[1..] + b;
      PartsConcat(a[1..], b, k);
    }
  }

  lemma {:induction false} Parts1(p: Part, k: string)
    ensures PartsText([p], k) == PartText(p, k)
  {
    assert [p][1..] == [];
  }

  lemma {:induction false} Parts2(p: Part, q: Part, k: string)
    ensures PartsText([p, q], k) == PartText(p, PartText(q, k))
  {
    assert [p, q][1..] == [q];
    Parts1(q, k);
  }

  lemma {:induction false} Parts3(p: Part, q: Part, r: Part, k: string)
    ensures PartsText([p, q, r], k) == PartText(p, PartText(q, PartText(r, k)))
  {
    assert [p, q, r][1..] == [q, r];
    Parts2(q, r, k);
  }

  lemma {:induction false} Parts5(p: Part, q: Part, r: Part, s: Part, t: Part, k: string)
    ensures PartsText([p, q, r, s, t], k) == PartText(p, PartText(q, PartText(r, PartText(s, PartText(t, k)))))
  {
    assert [p, q, r, s, t][1..] == [q, r, s, t];
    assert [q, r, s, t][1..] == [r, s, t];
    Parts3(r, s, t, k);
  }

  lemma {:induction false} PartSizeExact(part: Part)
    requires PartSized(part)
    ensures |PartText(part, "")| == PartSize(part)
    decreases part
  {
    if part.Child? {
      var n := part.node;
      assert AllSized(n.parts) by {
        forall i | 0 <= i < |n.parts| ensures PartSized(n.parts[i]) {
        }
      }
      SizeExact(n.parts);
      PartsAppend(n.parts, ")" + "");
    }
  }

  /** The recorded size is the rendered length. */
  lemma {:induction false} SizeExact(parts: seq<Part>)
    requires AllSized(parts)
    ensures |PartsText(parts, "")| == SizeOf(parts)
    decreases parts
  {
    if parts != [] {
      assert PartSized(parts[0]);
      assert AllSized(parts[1..]);
      PartSizeExact(parts[0]);
      SizeExact(parts[1..]);
      PartAppends(parts[0], PartsText(parts[1..], ""));
    }
  }

  /** The buffer reserved by Render and RenderWithContext is filled exactly: the rendered
      text has the recorded size, plus two exactly when it is bracketed. */
  lemma {:induction false} ReserveExact(n: Node, context: Prec)
    requires Sized(n)
    ensures |NodeText(n)| == n.size
    ensures |TextIn(n, context)| == n.size + if n.precedence >= context then 2 else 0
  {
    assert AllSized(n.parts) by {
      forall i | 0 <= i < |n.parts| ensures PartSized(n.parts[i]) {
      }
    }
    SizeExact(n.parts);
    PartSizeExact(Child(n, context));
  }

  // ---- building

  function Made(precedence: Prec, parts: seq<Part>): (n: Node)
    ensures AllSized(parts) ==> Sized(n)
  {
    var n := Node(precedence, parts, SizeOf(parts));
    assert AllSized(parts) ==> forall i :: 0 <= i < |parts| ==> parts[i].Child? ==> Sized(parts[i].node) by {
      if AllSized(parts) {
        forall i | 0 <= i < |parts| ensures parts[i].Child? ==> Sized(parts[i].node) {
          assert PartSized(parts[i]);
        }
      }
    }
    n
  }

  method MakeLeaf(text: string, precedence: Prec) returns (n: Node)
    ensures Sized(n) && n == Made(precedence, [Text(text)])
    ensures NodeText(n) == text && n.precedence == precedence
  {
    n := Node(precedence, [Text(text)], |text|);
    assert [Text(text)][1..] == [];
    assert AllSized([Text(text)]);
    assert SizeOf([Text(text)]) == PartSize([Text(text)][0]) + SizeOf([Text(text)][1..]);
    assert PartsText([Text(text)], "") == PartText([Text(text)][0], PartsText([Text(text)][1..], ""));
  }

  lemma {:induction false} SizeAppend(parts: seq<Part>, part: Part)
    ensures SizeOf(parts + [part]) == SizeOf(parts) + PartSize(part)
    decreases parts
  {
    if parts == [] {
      assert parts + [part] == [part] && [part][1..] == [];
    } else {
      assert (parts + [part])[1..] == parts[1..] + [part];
      SizeAppend(parts[1..], part);
    }
  }

  method MakeNode(precedence: Prec, parts: seq<Part>) returns (n: Node)
    ensures n == Made(precedence, parts)
    ensures AllSized(parts) ==> Sized(n)
  {
    var size := 0;
    for i := 0 to |parts|
      invariant size == SizeOf(parts[..i])
    {
      size := size + PartSize(parts[i]);
      SizeAppend(parts[..i], parts[i]);
      assert parts[..i] + [parts[i]] == parts[..i + 1];
    }
    assert parts[..|parts|] == parts;
    n := Node(precedence, parts, size);
  }

  // ---- rendering

  /** The string AppendPart appends to by reference. */
  class Buffer {
    var text: string

    constructor ()
      ensures text == ""
    {
      text := "";
    }

    method AppendPart(part: Part)
      modifies this
      ensures text == old(text) + PartText(part, "")
      decreases part
    {
      match part {
        case Text(s) =>
          text := text + s;
          assert s + "" == s;
        case Child(n, context) =>
          var parens := NeedsParens(n, context);
          if parens {
            text := text + "(";
          }
          AppendParts(n.parts, part);
          if parens {
            text := text + ")";
            PartsAppend(n.parts, ")" + "");
          }
      }
    }

    /** The loop over the parts of one node, itself a part of `of`. */
    method AppendParts(parts: seq<Part>, ghost of: Part)
      requires forall i :: 0 <= i < |parts| ==> (of decreases to parts[i])
      modifies this
      ensures text == old(text) + PartsText(parts, "")
      decreases of, 0
    {
      for i := 0 to |parts|
        invariant text + PartsText(parts[i..], "") == old(text) + PartsText(parts, "")
      {
        PartAppends(parts[i], PartsText(parts[i + 1..], ""));
        assert parts[i..][1..] == parts[i + 1..];
        AppendPart(parts[i]);
      }
    }
  }

  method Render(n: Node) returns (out: string)
    ensures out == NodeText(n)
    ensures Sized(n) ==> |out| == n.size
  {
    var buffer := new Buffer();
    for i := 0 to |n.parts|
      invariant buffer.text + PartsText(n.parts[i..], "") == NodeText(n)
    {
      PartAppends(n.parts[i], PartsText(n.parts[i + 1..], ""));
      assert n.parts[i..][1..] == n.parts[i + 1..];
      buffer.AppendPart(n.parts[i]);
    }
    out := buffer.text;
    if Sized(n) {
      ReserveExact(n, n.precedence);
    }
  }

  method RenderWithContext(n: Node, context: Prec) returns (out: string)
    ensures out == TextIn(n, context)
    ensures Sized(n) ==> |out| == n.size + if n.precedence >= context then 2 else 0
  {
    var parens := NeedsParens(n, context);
    var buffer := new Buffer();
    if parens {
      buffer.text := buffer.text + "(";
    }
    ghost var open := buffer.text;
    for i := 0 to |n.parts|
      invariant buffer.text + PartsText(n.parts[i..], "") == open + NodeText(n)
    {
      PartAppends(n.parts[i], PartsText(n.parts[i + 1..], ""));
      assert n.parts[i..][1..] == n.parts[i + 1..];
      buffer.AppendPart(n.parts[i]);
    }
    assert buffer.text == open + NodeText(n);
    if parens {
      buffer.text := buffer.text + ")";
      PartsAppend(n.parts, ")" + "");
      assert "(" + NodeText(n) + ")" == "(" + (NodeText(n) + ")");
    }
    out := buffer.text;
    if Sized(n) {
      ReserveExact(n, context);
    }
  }
}
