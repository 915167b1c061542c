/** `SearchResults.FindChildElement` (Mypintool/doc/html/search/search.js): a tree walk by pointers alone. */
module ResultTree {
  import opened Text

  /** A DOM node and the links the walk follows. */
  class Node {
    var nodeName: string
    var className: string
    var parentNode: Node?
    var firstChild: Node?
    var nextSibling: Node?
  }

  /** A row of siblings from some node on, each with the row of its children. */
  datatype Row = End | Elem(node: Node, kids: Row, rest: Row)

  ghost function Nodes(r: Row): set<Node> {
    match r
    case End => {}
    case Elem(n, kids, rest) => {n} + Nodes(kids) + Nodes(rest)
  }

  function Head(r: Row): Node? {
    if r.End? then null else r.node
  }

  /** The links of the nodes spell out the row, below `parent`. */
  ghost predicate Linked(r: Row, parent: Node)
    reads Nodes(r)
  {
    match r
    case End => true
    case Elem(n, kids, rest) =>
      && n.parentNode == parent && n.nextSibling == Head(rest) && n.firstChild == Head(kids)
      && Linked(kids, n) && Linked(rest, parent)
  }

  predicate IsDiv(n: Node) reads n { Lower(n.nodeName) == "div" }

  predicate IsTarget(n: Node) reads n { IsDiv(n) && n.className == "SRChildren" }

  // ----- what the walk is to find -----

  /** The nodes of a row in document order, entering the children of `div` elements only. */
  ghost function Visited(r: Row): seq<Node>
    reads Nodes(r)
  {
    match r
    case End => []
    case Elem(n, kids, rest) => [n] + (if IsDiv(n) then Visited(kids) else []) + Visited(rest)
  }

  ghost predicate IsFirstTarget(nodes: seq<Node>, found: Node?)
    reads nodes
  {
    if found == null then forall n :: n in nodes ==> !IsTarget(n)
    else exists k :: 0 <= k < |nodes| && nodes[k] == found && IsTarget(found) && forall j :: 0 <= j < k ==>
      !IsTarget(nodes[j])
  }

  /** The recursive search that the walk unrolls. */
  ghost function Find(r: Row): Node?
    reads Nodes(r)
  {
    match r
    case End => null
    case Elem(n, kids, rest) =>
      if IsTarget(n) then n
      else
        var below := if IsDiv(n) then Find(kids) else null;
        if below != null then below else Find(rest)
  }

  lemma FirstOfTwo(a: seq<Node>, b: seq<Node>, x: Node?, y: Node?)
    requires IsFirstTarget(a, x) && IsFirstTarget(b, y)
    ensures IsFirstTarget(a + b, if x != null then x else y)
  {
    if x != null {
      var k :| 0 <= k < |a| && a[k] == x && forall j :: 0 <= j < k ==> !IsTarget(a[j]);
      assert (a + b)[k] == x;
    } else if y != null {
      var k :| 0 <= k < |b| && b[k] == y && forall j :: 0 <= j < k ==> !IsTarget(b[j]);
      assert (a + b)[|a| + k] == y;
    }
  }

  ghost function FirstAfter(n: Node, nodes: seq<Node>, x: Node?): (r: Node?)
    requires !IsTarget(n) && IsFirstTarget(nodes, x)
    reads n, nodes
    ensures r == x && IsFirstTarget([n] + nodes, x)
  {
    assert IsFirstTarget([n], null);
    FirstOfTwo([n], nodes, null, x);
    x
  }

  lemma {:induction false} FindIsFirst(r: Row)
    ensures IsFirstTarget(Visited(r), Find(r))
  {
    match r
    case End =>
    case Elem(n, kids, rest) =>
      FindIsFirst(kids);
      FindIsFirst(rest);
      if IsTarget(n) {
        assert Visited(r)[0] == n;
      } else if IsDiv(n) {
        FirstOfTwo([n] + Visited(kids), Visited(rest), FirstAfter(n, Visited(kids), Find(kids)), Find(rest));
      } else {
        FirstOfTwo([n], Visited(rest), null, Find(rest));
        assert [n] + [] + Visited(rest) == [n] + Visited(rest);
      }
  }

  // ----- letter case -----

  /** The same letters, each in either case. */
  predicate SameLetters(a: string, b: string) {
    |a| == |b| && forall i :: 0 <= i < |a| ==>
      || a[i] == b[i]
      || (65 <= a[i] as int <= 90 && b[i] as int == a[i] as int + 32)
      || (65 <= b[i] as int <= 90 && a[i] as int == b[i] as int + 32)
  }

  lemma LowerOfSame(a: string, b: string)
    requires SameLetters(a, b)
    ensures Lower(a) == Lower(b)
  {
    forall i | 0 <= i < |a| ensures Lower(a)[i] == Lower(b)[i] {
      LowerCharExact(a[i]);
      LowerCharExact(b[i]);
    }
  }

  /** A target is a "div", in any letter case, of the class "SRChildren". */
  lemma TargetSpelledOut(n: Node)
    ensures IsDiv(n) <==> SameLetters(n.nodeName, "div")
    ensures IsTarget(n) <==> SameLetters(n.nodeName, "div") && n.className == "SRChildren"
  {
    if IsDiv(n) {
      forall i | 0 <= i < 3 ensures LowerChar(n.nodeName[i]) == "div"[i] {
        assert Lower(n.nodeName)[i] == "div"[i];
      }
    }
    if SameLetters(n.nodeName, "div") {
      LowerOfSame(n.nodeName, "div");
      assert Lower("div") == "div";
    }
  }

  /** Two trees that differ in the letter case of node names alone. */
  ghost predicate Alike(r: Row, s: Row)
    reads Nodes(r), Nodes(s)
  {
    match (r, s)
    case (End, End) => true
    case (Elem(n, kids, rest), Elem(m, kids', rest')) =>
      && SameLetters(n.nodeName, m.nodeName) && n.className == m.className
      && Alike(kids, kids') && Alike(rest, rest')
    case _ => false
  }

  lemma NodesAlike(n: Node, m: Node)
    requires SameLetters(n.nodeName, m.nodeName) && n.className == m.className
    ensures (IsDiv(n) <==> IsDiv(m)) && (IsTarget(n) <==> IsTarget(m))
  {
    LowerOfSame(n.nodeName, m.nodeName);
  }

  ghost predicate SameTargets(a: seq<Node>, b: seq<Node>)
    reads a, b
  {
    |a| == |b| && forall k :: 0 <= k < |a| ==> (IsTarget(a[k]) <==> IsTarget(b[k]))
  }

  lemma JoinTargets(a: seq<Node>, b: seq<Node>, c: seq<Node>, d: seq<Node>)
    requires SameTargets(a, c) && SameTargets(b, d)
    ensures SameTargets(a + b, c + d)
  {
    hide IsTarget;
  }

  lemma NoTargets()
    ensures SameTargets([], [])
  {
  }

  lemma {:induction false} VisitedAlike(r: Row, s: Row)
    requires Alike(r, s)
    ensures SameTargets(Visited(r), Visited(s))
  {
    match (r, s)
    case (Elem(n, kids, rest), Elem(m, kids', rest')) =>
      NodesAlike(n, m);
      assert SameTargets([n], [m]);
      hide IsDiv, IsTarget, SameLetters, SameTargets;
      VisitedAlike(kids, kids');
      VisitedAlike(rest, rest');
      var below, below' := if IsDiv(n) then Visited(kids) else [], if IsDiv(m) then Visited(kids') else [];
      if !IsDiv(n) { NoTargets(); }
      JoinTargets([n], below, [m], below');
      JoinTargets([n] + below, Visited(rest), [m] + below', Visited(rest'));
    case _ =>
  }

  /** So the node found is at the same place in both. */
  lemma {:induction false} FoundAlike(r: Row, s: Row)
    requires Alike(r, s)
    ensures |Visited(r)| == |Visited(s)| && (Find(r) == null <==> Find(s) == null)
    ensures Find(r) != null ==>
      exists k :: 0 <= k < |Visited(r)| && Visited(r)[k] == Find(r) && Visited(s)[k] == Find(s)
  {
    hide Visited, Find, IsTarget, Alike;
    VisitedAlike(r, s);
    FindIsFirst(r);
    FindIsFirst(s);
  }

  // ----- the walk -----

  ghost function Size(r: Row): nat {
    match r
    case End => 0
    case Elem(_, kids, rest) => 1 + Size(kids) + Size(rest)
  }

  ghost function NodesOfAll(rows: seq<Row>): set<Node> {
    if rows == [] then {} else Nodes(rows[0]) + NodesOfAll(rows[1..])
  }

  ghost function SizeOfAll(rows: seq<Row>): nat {
    if rows == [] then 0 else Size(rows[0]) + SizeOfAll(rows[1..])
  }

  /** What is still to be searched: the current row, then the rows after each ancestor, from the inside out. */
  ghost function FindInAll(rows: seq<Row>): Node?
    reads NodesOfAll(rows)
  {
    if rows == [] then null
    else if Find(rows[0]) != null then Find(rows[0])
    else FindInAll(rows[1..])
  }

  /**
   `above[0]` is the parent of row 0; each ancestor below `top` is followed by the row one level further out.
   */
  ghost predicate Frames(rows: seq<Row>, above: seq<Node>, top: Node)
    reads NodesOfAll(rows), above
    decreases |rows|
  {
    && |rows| == |above| > 0
    && Linked(rows[0], above[0])
    && (if |rows| == 1 then above[0] == top
        else
          && above[0] != top && above[0].nextSibling == Head(rows[1]) && above[0].parentNode == above[1]
          && Frames(rows[1..], above[1..], top))
  }

  /** Climbing: `element` is `above[0]`, whose own next siblings are the row `rows[0]`. */
  ghost predicate Climbing(element: Node?, rows: seq<Row>, above: seq<Node>, top: Node)
    reads NodesOfAll(rows), above
  {
    && above != [] && element == above[0]
    && (|above| == 1 ==> element == top && rows == [])
    && (|above| > 1 ==>
          && element != top && |rows| + 1 == |above|
          && element.nextSibling == Head(rows[0]) && element.parentNode == above[1]
          && Frames(rows, above[1..], top))
  }

  lemma {:induction false} SizeOfTwo(a: Row, b: Row, rows: seq<Row>)
    ensures SizeOfAll([a, b] + rows) == Size(a) + Size(b) + SizeOfAll(rows)
    ensures SizeOfAll([b] + rows) == Size(b) + SizeOfAll(rows)
  {
    assert ([a, b] + rows)[1..] == [b] + rows;
  }

  /** The walk's own state: at the head of the innermost row, with the answer still ahead. */
  ghost predicate Walking(element: Node?, rows: seq<Row>, above: seq<Node>, top: Node, kids: Row)
    reads NodesOfAll(rows), above, Nodes(kids)
  {
    && Frames(rows, above, top) && element == Head(rows[0])
    && top !in NodesOfAll(rows) && Find(kids) == FindInAll(rows)
  }

  lemma {:induction false} Descend(element: Node, rows: seq<Row>, above: seq<Node>, top: Node, kids: Row)
    requires Walking(element, rows, above, top, kids) && !IsTarget(element) && IsDiv(element)
    requires element.firstChild != null
    ensures var r := [rows[0].kids, rows[0].rest] + rows[1..];
      Walking(element.firstChild, r, [element] + above, top, kids) && SizeOfAll(r) < SizeOfAll(rows)
  {
    var row := rows[0];
    var r := [row.kids, row.rest] + rows[1..];
    SizeOfTwo(row.kids, row.rest, rows[1..]);
    assert r[1..] == [row.rest] + rows[1..] && r[1..][1..] == rows[1..];
    assert ([element] + above)[1..] == above;
  }

  lemma {:induction false} Sideways(element: Node, rows: seq<Row>, above: seq<Node>, top: Node, kids: Row)
    requires Walking(element, rows, above, top, kids) && !IsTarget(element)
    requires IsDiv(element) ==> element.firstChild == null
    ensures Find(kids) == FindInAll([rows[0].rest] + rows[1..])
    ensures element.nextSibling != null ==>
      var r := [rows[0].rest] + rows[1..];
      Walking(element.nextSibling, r, above, top, kids) && SizeOfAll(r) < SizeOfAll(rows)
    ensures element.nextSibling == null ==> Find(kids) == FindInAll(rows[1..])
  {
    var row := rows[0];
    var r := [row.rest] + rows[1..];
    SizeOfTwo(End, row.rest, rows[1..]);
    assert r[1..] == rows[1..];
    assert Find(row) == Find(row.rest);
  }

  lemma {:induction false} StartClimb(element: Node, rows: seq<Row>, above: seq<Node>, top: Node)
    requires Frames(rows, above, top) && element == Head(rows[0])
    ensures Climbing(element.parentNode, rows[1..], above, top) && SizeOfAll(rows[1..]) < SizeOfAll(rows)
  {
  }

  lemma {:induction false} ClimbMore(element: Node, rows: seq<Row>, above: seq<Node>, top: Node)
    requires Climbing(element, rows, above, top) && element != top && element.nextSibling == null
    ensures rows != [] && rows[0].End? && Climbing(element.parentNode, rows[1..], above[1..], top)
    ensures FindInAll(rows) == FindInAll(rows[1..]) && NodesOfAll(rows[1..]) <= NodesOfAll(rows)
    ensures SizeOfAll(rows[1..]) <= SizeOfAll(rows)
  {
  }

  /**
   The walk ends on every finite tree, with the first `SRChildren` div below `parentElement` in document order
   among the nodes reached through div elements, or with null (the source's undefined) when there is none.
   `kids` is the row of children of `parentElement`, which is not its own descendant.
   */
  method FindChildElement(parentElement: Node, ghost kids: Row) returns (found: Node?)
    requires parentElement.firstChild == Head(kids) && Linked(kids, parentElement) && parentElement !in Nodes(kids)
    ensures found == Find(kids) && IsFirstTarget(Visited(kids), found)
  {
    var element := parentElement.firstChild;
    ghost var rows: seq<Row>, above: seq<Node> := [kids], [parentElement];
    while element != null && element != parentElement
      invariant element != null && element != parentElement ==> Walking(element, rows, above, parentElement, kids)
      invariant element == null || element == parentElement ==> Find(kids) == null
      decreases if element == null || element == parentElement then 0 else 1 + SizeOfAll(rows)
    {
      if IsTarget(element) {
        FindIsFirst(kids);
        return element;
      }
      if IsDiv(element) && element.firstChild != null {
        Descend(element, rows, above, parentElement, kids);
        rows, above := [rows[0].kids, rows[0].rest] + rows[1..], [element] + above;
        element := element.firstChild;
      } else if element.nextSibling != null {
        Sideways(element, rows, above, parentElement, kids);
        rows := [rows[0].rest] + rows[1..];
        element := element.nextSibling;
      } else {
        Sideways(element, rows, above, parentElement, kids);
        StartClimb(element, rows, above, parentElement);
        ghost var before := SizeOfAll(rows);
        rows := rows[1..];
        element := element.parentNode;
        while element != null && element != parentElement && element.nextSibling == null
          invariant Climbing(element, rows, above, parentElement)
          invariant parentElement !in NodesOfAll(rows) && Find(kids) == FindInAll(rows) && SizeOfAll(rows) < before
          decreases |above|
        {
          ClimbMore(element, rows, above, parentElement);
          rows, above := rows[1..], above[1..];
          element := element.parentNode;
        }
        if element != null && element != parentElement {
          above := above[1..];
          element := element.nextSibling;
        }
      }
    }
    FindIsFirst(kids);
    return null;
  }
}
