/**
 The walk over the accessibility elements of the app in front, which stops at a depth, at a number
 of elements and when the simulator no longer answers in time. What it returns is always the
 first elements, in preorder, of the tree cut at that depth.
 */
module AccessibilityWalk {

  const MAX_DEPTH: nat := 64

  const MAX_ELEMENTS: nat := 2000

  /** An element with what it says of itself and its list of children, if it answers one; a child may be missing. */
  datatype Element = Element(facts: int, listed: bool, children: seq<Element>) | Missing

  datatype Node = Node(facts: int, children: seq<Node>)

  // ---------------------------------------------------------------------------------------------
  // The tree cut at the depth

  function Cut(element: Element, depth: nat): Node
    requires element.Element? && depth <= MAX_DEPTH
    decreases MAX_DEPTH - depth, 0, 0
  {
    Node(element.facts, if depth == MAX_DEPTH || !element.listed then [] else CutAll(element.children, depth + 1))
  }

  function CutAll(elements: seq<Element>, depth: nat): seq<Node>
    requires depth <= MAX_DEPTH
    decreases MAX_DEPTH - depth, 1, |elements|
  {
    if elements == [] then []
    else
      var n := |elements| - 1;
      var before := CutAll(elements[..n], depth);
      if elements[n].Missing? then before else before + [Cut(elements[n], depth)]
  }

  function Size(node: Node): (size: nat)
    ensures size > 0
  {
    1 + SizeAll(node.children)
  }

  function SizeAll(nodes: seq<Node>): nat {
    if nodes == [] then 0 else Size(nodes[0]) + SizeAll(nodes[1..])
  }

  // ---------------------------------------------------------------------------------------------
  // The first nodes of a tree

  /** The part of the tree with its first `k` nodes in preorder. */
  function Take(node: Node, k: nat): Node
    requires k > 0
    decreases node, 0
  {
    Node(node.facts, TakeAll(node.children, k - 1))
  }

  function TakeAll(nodes: seq<Node>, k: nat): seq<Node>
    decreases nodes, 1
  {
    if nodes == [] || k == 0 then []
    else
      var first := Size(nodes[0]);
      [Take(nodes[0], k)] + TakeAll(nodes[1..], if k < first then 0 else k - first)
  }

  function Preorder(node: Node): seq<int> {
    [node.facts] + PreorderAll(node.children)
  }

  function PreorderAll(nodes: seq<Node>): seq<int> {
    if nodes == [] then [] else Preorder(nodes[0]) + PreorderAll(nodes[1..])
  }

  /**
   The same tree with nothing but last children left out: every node keeps its parent and its place
   among its siblings.
   */
  ghost predicate Prunes(part: Node, node: Node)
    decreases node
  {
    && part.facts == node.facts && |part.children| <= |node.children|
    && forall i :: 0 <= i < |part.children| ==> Prunes(part.children[i], node.children[i])
  }

  lemma {:induction false} PreorderCounts(node: Node)
    ensures |Preorder(node)| == Size(node)
    decreases node, 0
  {
    PreorderAllCounts(node.children);
  }

  lemma {:induction false} PreorderAllCounts(nodes: seq<Node>)
    ensures |PreorderAll(nodes)| == SizeAll(nodes)
    decreases nodes, 1
  {
    if nodes != [] {
      PreorderCounts(nodes[0]);
      PreorderAllCounts(nodes[1..]);
    }
  }

  /** What is taken are the first `k` nodes, pruned from the tree. */
  lemma {:induction false} TakenAreFirst(node: Node, k: nat)
    requires 0 < k <= Size(node)
    ensures |Preorder(node)| == Size(node) && Preorder(Take(node, k)) == Preorder(node)[..k]
    ensures Size(Take(node, k)) == k && Prunes(Take(node, k), node)
    decreases node, 0
  {
    PreorderCounts(node);
    PreorderAllCounts(TakeAll(node.children, k - 1));
    AllTakenAreFirst(node.children, k - 1);
  }

  lemma {:induction false} AllTakenAreFirst(nodes: seq<Node>, k: nat)
    requires k <= SizeAll(nodes)
    ensures |PreorderAll(nodes)| == SizeAll(nodes) && PreorderAll(TakeAll(nodes, k)) == PreorderAll(nodes)[..k]
    ensures SizeAll(TakeAll(nodes, k)) == k
    ensures |TakeAll(nodes, k)| <= |nodes|
    ensures forall i :: 0 <= i < |TakeAll(nodes, k)| ==> Prunes(TakeAll(nodes, k)[i], nodes[i])
    decreases nodes, 1
  {
    PreorderAllCounts(nodes);
    if nodes != [] && k > 0 {
      var first := Size(nodes[0]);
      PreorderCounts(nodes[0]);
      var rest := if k < first then 0 else k - first;
      AllTakenAreFirst(nodes[1..], rest);
      if k <= first {
        TakenAreFirst(nodes[0], k);
      } else {
        TakeWhole(nodes[0], k);
        PrunesItself(nodes[0]);
      }
      assert TakeAll(nodes, k)[1..] == TakeAll(nodes[1..], rest);
    }
  }

  lemma {:induction false} PrunesItself(node: Node)
    ensures Prunes(node, node)
    decreases node
  {
    forall i | 0 <= i < |node.children| ensures Prunes(node.children[i], node.children[i]) {
      PrunesItself(node.children[i]);
    }
  }

  lemma {:induction false} TakeWhole(node: Node, k: nat)
    requires Size(node) <= k
    ensures Take(node, k) == node
    decreases node, 0
  {
    TakeAllWhole(node.children, k - 1);
  }

  lemma {:induction false} TakeAllWhole(nodes: seq<Node>, k: nat)
    requires SizeAll(nodes) <= k
    ensures TakeAll(nodes, k) == nodes
    decreases nodes, 1
  {
    if nodes != [] {
      TakeWhole(nodes[0], k);
      TakeAllWhole(nodes[1..], k - Size(nodes[0]));
    }
  }

  lemma {:induction false} SizeAllMore(nodes: seq<Node>, node: Node)
    ensures SizeAll(nodes + [node]) == SizeAll(nodes) + Size(node)
  {
    if nodes == [] {
      assert nodes + [node] == [node] && [node][1..] == [];
    } else {
      SizeAllMore(nodes[1..], node);
      assert (nodes + [node])[1..] == nodes[1..] + [node];
    }
  }

  lemma Regroups(one: seq<Node>, two: seq<Node>, three: seq<Node>)
    ensures one + two + three == one + (two + three)
  {
  }

  lemma TakesFirst(nodes: seq<Node>, k: nat)
    requires nodes != [] && k > 0
    ensures var first := Size(nodes[0]);
            && TakeAll(nodes, k) == [Take(nodes[0], k)] + TakeAll(nodes[1..], if k < first then 0 else k - first)
            && SizeAll(nodes) == first + SizeAll(nodes[1..])
  {
  }

  lemma TakesNone(nodes: seq<Node>)
    ensures TakeAll(nodes, 0) == [] && (nodes == [] ==> SizeAll(nodes) == 0 && forall k :: TakeAll(nodes, k) == [])
  {
  }

  /** One more tree behind the others changes what is taken only past them. */
  lemma {:induction false} TakeAllMore(nodes: seq<Node>, node: Node, k: nat)
    ensures TakeAll(nodes + [node], k) ==
              if k <= SizeAll(nodes) then TakeAll(nodes, k) else nodes + [Take(node, k - SizeAll(nodes))]
  {
    hide TakeAll, SizeAll, Take, Size;
    TakesNone(nodes);
    TakesNone(nodes + [node]);
    if k > 0 {
      TakesFirst(nodes + [node], k);
      if nodes == [] {
        TakesNone([node][1..]);
      } else {
        var first := Size(nodes[0]);
        TakesFirst(nodes, k);
        assert (nodes + [node])[1..] == nodes[1..] + [node];
        TakeAllMore(nodes[1..], node, if k < first then 0 else k - first);
        if k > SizeAll(nodes) {
          TakeWhole(nodes[0], k);
          Regroups([nodes[0]], nodes[1..], [Take(node, k - SizeAll(nodes))]);
          assert nodes == [nodes[0]] + nodes[1..];
        }
      }
    }
  }

  /** Elements that were not reached do not count. */
  lemma {:induction false} TakeUnreached(elements: seq<Element>, depth: nat, i: nat, k: nat)
    requires depth <= MAX_DEPTH && i <= |elements| && k <= SizeAll(CutAll(elements[..i], depth))
    ensures TakeAll(CutAll(elements, depth), k) == TakeAll(CutAll(elements[..i], depth), k)
    ensures k <= SizeAll(CutAll(elements, depth))
    decreases |elements|
  {
    var n := |elements| - 1;
    if i == |elements| {
      assert elements[..i] == elements;
    } else {
      assert elements[..n][..i] == elements[..i];
      TakeUnreached(elements[..n], depth, i, k);
      if !elements[n].Missing? {
        SizeAllMore(CutAll(elements[..n], depth), Cut(elements[n], depth));
        TakeAllMore(CutAll(elements[..n], depth), Cut(elements[n], depth), k);
      }
    }
  }

  // ---------------------------------------------------------------------------------------------
  // The walk

  function Min(one: nat, other: nat): nat {
    if one < other then one else other
  }

  class Reader {
    var count: nat
    // Messages sent so far, and the one from which on the simulator answers too late.
    var messages: nat
    const late: nat

    constructor (late: nat)
      ensures count == 0 && messages == 0 && this.late == late
    {
      count, messages := 0, 0;
      this.late := late;
    }

    predicate TimedOut()
      reads this`messages
    {
      messages >= late
    }

    /** The first elements below this one, as many as may still be read; all of them unless time runs out. */
    method ReadNode(element: Element, depth: nat) returns (node: Node)
      requires element.Element? && depth <= MAX_DEPTH && count < MAX_ELEMENTS
      modifies this`count, this`messages
      ensures old(count) < count <= MAX_ELEMENTS && old(messages) <= messages
      ensures count - old(count) <= Size(Cut(element, depth))
      ensures node == Take(Cut(element, depth), count - old(count))
      ensures !TimedOut() ==> count - old(count) == Min(MAX_ELEMENTS - old(count), Size(Cut(element, depth)))
      decreases MAX_DEPTH - depth
    {
      hide Take, Size, TakeAll, SizeAll, CutAll;
      count := count + 1;
      messages := messages + 1;
      node := Node(element.facts, []);
      if depth >= MAX_DEPTH || TimedOut() {
        NoChildren(element.facts, Cut(element, depth));
        return;
      }
      messages := messages + 1;
      if !element.listed {
        NoChildren(element.facts, Cut(element, depth));
        return;
      }
      ghost var start := count;
      NothingTaken(element.children, depth + 1);
      var index := 0;
      while index < |element.children|
        invariant index <= |element.children| && old(messages) <= messages && start <= count <= MAX_ELEMENTS
        invariant count - start <= SizeAll(CutAll(element.children[..index], depth + 1))
        invariant node == Node(element.facts, TakeAll(CutAll(element.children[..index], depth + 1), count - start))
        invariant !TimedOut() ==>
                    count - start == Min(MAX_ELEMENTS - start, SizeAll(CutAll(element.children[..index], depth + 1)))
      {
        if count >= MAX_ELEMENTS || TimedOut() {
          break;
        }
        messages := messages + 1;
        ghost var taken := count - start;
        if element.children[index].Element? {
          var child := ReadNode(element.children[index], depth + 1);
          OneMoreTaken(element.children, index, depth + 1, taken, count - start);
          node := node.(children := node.children + [child]);
        } else {
          NoneTaken(element.children, index, depth + 1);
        }
        index := index + 1;
      }
      assert element.children[..|element.children|] == element.children;
      TakeUnreached(element.children, depth + 1, index, count - start);
      UnreachedCount(element.children, depth + 1, index);
      ChildrenTaken(Cut(element, depth), count - start);
    }

    /** The tree and whether it may be cut short; an answer in time is the whole cut tree unless that is too large. */
    method WalkFrontmost(root: Element) returns (node: Node, truncated: bool)
      requires root.Element? && count == 0
      modifies this`count, this`messages
      ensures 0 < count <= Size(Cut(root, 0)) && Size(node) == count
      ensures count <= |Preorder(Cut(root, 0))| && Preorder(node) == Preorder(Cut(root, 0))[..count]
      ensures Prunes(node, Cut(root, 0))
      ensures !TimedOut() ==> count == Min(MAX_ELEMENTS, Size(Cut(root, 0)))
      ensures !TimedOut() ==> (truncated <==> Size(Cut(root, 0)) >= MAX_ELEMENTS)
      ensures !TimedOut() && !truncated ==> node == Cut(root, 0)
    {
      node := ReadNode(root, 0);
      PreorderCounts(Cut(root, 0));
      TakenAreFirst(Cut(root, 0), count);
      if Size(Cut(root, 0)) <= count {
        TakeWhole(Cut(root, 0), count);
      }
      truncated := count >= MAX_ELEMENTS;
    }
  }

  lemma NoChildren(facts: int, node: Node)
    requires node.facts == facts
    ensures Take(node, 1) == Node(facts, []) && 1 <= Size(node)
    ensures node.children == [] ==> Size(node) == 1
  {
  }

  /** A further child was read, after all of those before it. */
  lemma OneMoreTaken(elements: seq<Element>, i: nat, depth: nat, taken: nat, k: nat)
    requires depth <= MAX_DEPTH && i < |elements| && elements[i].Element?
    requires taken == SizeAll(CutAll(elements[..i], depth)) < k
    ensures var before := CutAll(elements[..i], depth);
            var next := Cut(elements[i], depth);
            && SizeAll(CutAll(elements[..i + 1], depth)) == taken + Size(next)
            && TakeAll(before, taken) + [Take(next, k - taken)] == TakeAll(CutAll(elements[..i + 1], depth), k)
  {
    hide Cut, CutAll, SizeAll, TakeAll;
    var before := CutAll(elements[..i], depth);
    CutAllMore(elements, i, depth);
    SizeAllMore(before, Cut(elements[i], depth));
    TakeAllMore(before, Cut(elements[i], depth), k);
    TakeAllWhole(before, taken);
  }

  lemma CutAllMore(elements: seq<Element>, i: nat, depth: nat)
    requires depth <= MAX_DEPTH && i < |elements| && elements[i].Element?
    ensures CutAll(elements[..i + 1], depth) == CutAll(elements[..i], depth) + [Cut(elements[i], depth)]
  {
    hide Cut;
    assert elements[..i + 1][..i] == elements[..i];
  }

  lemma NoneTaken(elements: seq<Element>, i: nat, depth: nat)
    requires depth <= MAX_DEPTH && i < |elements| && elements[i].Missing?
    ensures CutAll(elements[..i + 1], depth) == CutAll(elements[..i], depth)
  {
    assert elements[..i + 1][..i] == elements[..i];
  }

  lemma NothingTaken(elements: seq<Element>, depth: nat)
    requires depth <= MAX_DEPTH
    ensures CutAll(elements[..0], depth) == [] && SizeAll([]) == 0 && TakeAll([], 0) == []
  {
  }

  lemma ChildrenTaken(node: Node, k: nat)
    ensures Take(node, k + 1) == Node(node.facts, TakeAll(node.children, k)) && Size(node) == 1 + SizeAll(node.children)
  {
  }

  /** Past a full count the remaining elements make no difference. */
  lemma {:induction false} UnreachedCount(elements: seq<Element>, depth: nat, i: nat)
    requires depth <= MAX_DEPTH && i <= |elements|
    ensures SizeAll(CutAll(elements[..i], depth)) <= SizeAll(CutAll(elements, depth))
    decreases |elements|
  {
    var n := |elements| - 1;
    if i == |elements| {
      assert elements[..i] == elements;
    } else {
      assert elements[..n][..i] == elements[..i];
      UnreachedCount(elements[..n], depth, i);
      if !elements[n].Missing? {
        SizeAllMore(CutAll(elements[..n], depth), Cut(elements[n], depth));
      }
    }
  }

  // ---------------------------------------------------------------------------------------------
  // What the depth cuts

  /** The tree with no cut. */
  function Whole(element: Element): Node
    requires element.Element?
    decreases element, 0
  {
    Node(element.facts, if element.listed then WholeAll(element.children) else [])
  }

  function WholeAll(elements: seq<Element>): seq<Node>
    decreases elements, 1
  {
    if elements == [] then []
    else
      var n := |elements| - 1;
      var before := WholeAll(elements[..n]);
      if elements[n].Missing? then before else before + [Whole(elements[n])]
  }

  /** How many levels there are below a node. */
  function Height(node: Node): nat {
    HeightAll(node.children)
  }

  /** One more than the highest of the trees, or zero when there are none. */
  function HeightAll(nodes: seq<Node>): nat {
    if nodes == [] then 0
    else
      var n := |nodes| - 1;
      Max(HeightAll(nodes[..n]), 1 + Height(nodes[n]))
  }

  function Max(one: nat, other: nat): nat {
    if one < other then other else one
  }

  /**
   The cut leaves everything exactly when no element is deeper than `MAX_DEPTH`; the answer does not
   say so otherwise.
   */
  lemma {:induction false} CutsNothingIffShallow(element: Element, depth: nat)
    requires element.Element? && depth <= MAX_DEPTH
    ensures Cut(element, depth) == Whole(element) <==> Height(Whole(element)) <= MAX_DEPTH - depth
    decreases MAX_DEPTH - depth, 0, 0
  {
    if element.listed {
      if depth < MAX_DEPTH {
        CutsNoneIffShallow(element.children, depth + 1);
      } else {
        NoHeight(WholeAll(element.children));
      }
    }
  }

  lemma NoHeight(nodes: seq<Node>)
    ensures HeightAll(nodes) == 0 <==> nodes == []
  {
  }

  lemma {:induction false} CutsNoneIffShallow(elements: seq<Element>, depth: nat)
    requires 0 < depth <= MAX_DEPTH
    ensures CutAll(elements, depth) == WholeAll(elements) <==> HeightAll(WholeAll(elements)) <= MAX_DEPTH - depth + 1
    ensures |CutAll(elements, depth)| == |WholeAll(elements)|
    decreases MAX_DEPTH - depth, 1, |elements|
  {
    if elements != [] {
      var n := |elements| - 1;
      CutsNoneIffShallow(elements[..n], depth);
      if !elements[n].Missing? {
        CutsNothingIffShallow(elements[n], depth);
        var cut, whole := CutAll(elements[..n], depth), WholeAll(elements[..n]);
        assert (whole + [Whole(elements[n])])[..|whole|] == whole;
        if cut + [Cut(elements[n], depth)] == whole + [Whole(elements[n])] {
          assert (cut + [Cut(elements[n], depth)])[..|cut|] == cut;
          assert (cut + [Cut(elements[n], depth)])[|cut|] == Cut(elements[n], depth);
        }
      }
    }
  }

  /** The nodes in preorder, each with its depth. */
  function Levels(node: Node, depth: nat): seq<(int, nat)>
    decreases node, 0
  {
    [(node.facts, depth)] + LevelsAll(node.children, depth + 1)
  }

  function LevelsAll(nodes: seq<Node>, depth: nat): seq<(int, nat)>
    decreases nodes, 1
  {
    if nodes == [] then []
    else LevelsAll(nodes[..|nodes| - 1], depth) + Levels(nodes[|nodes| - 1], depth)
  }

  /** The part no deeper than `MAX_DEPTH`. */
  function Shallow(levels: seq<(int, nat)>): seq<(int, nat)> {
    if levels == [] then []
    else
      var last := levels[|levels| - 1];
      var before := Shallow(levels[..|levels| - 1]);
      if last.1 <= MAX_DEPTH then before + [last] else before
  }

  lemma {:induction false} ShallowBoth(levels: seq<(int, nat)>, more: seq<(int, nat)>)
    ensures Shallow(levels + more) == Shallow(levels) + Shallow(more)
  {
    if more == [] {
      assert levels + more == levels;
    } else {
      var n := |more| - 1;
      ShallowBoth(levels, more[..n]);
      assert (levels + more)[..|levels| + n] == levels + more[..n];
    }
  }

  lemma {:induction false} TooDeep(node: Node, depth: nat)
    requires depth > MAX_DEPTH
    ensures Shallow(Levels(node, depth)) == []
    decreases node, 0
  {
    ShallowBoth([(node.facts, depth)], LevelsAll(node.children, depth + 1));
    AllTooDeep(node.children, depth + 1);
  }

  lemma {:induction false} AllTooDeep(nodes: seq<Node>, depth: nat)
    requires depth > MAX_DEPTH
    ensures Shallow(LevelsAll(nodes, depth)) == []
    decreases nodes, 1
  {
    if nodes != [] {
      var n := |nodes| - 1;
      AllTooDeep(nodes[..n], depth);
      TooDeep(nodes[n], depth);
      ShallowBoth(LevelsAll(nodes[..n], depth), Levels(nodes[n], depth));
    }
  }

  /** The cut leaves out exactly the elements deeper than `MAX_DEPTH`, and nothing else of the tree. */
  lemma {:induction false} CutLeavesShallow(element: Element, depth: nat)
    requires element.Element? && depth <= MAX_DEPTH
    ensures Levels(Cut(element, depth), depth) == Shallow(Levels(Whole(element), depth))
    decreases MAX_DEPTH - depth, 0, 0
  {
    hide Shallow, LevelsAll, CutAll, WholeAll;
    var whole := if element.listed then WholeAll(element.children) else [];
    ShallowRoot(element.facts, depth, LevelsAll(whole, depth + 1));
    NoLevels(depth + 1);
    if depth == MAX_DEPTH {
      AllTooDeep(whole, depth + 1);
    } else if element.listed {
      CutLeavesAllShallow(element.children, depth + 1);
    }
  }

  lemma ShallowRoot(facts: int, depth: nat, levels: seq<(int, nat)>)
    requires depth <= MAX_DEPTH
    ensures Shallow([(facts, depth)] + levels) == [(facts, depth)] + Shallow(levels)
  {
    ShallowBoth([(facts, depth)], levels);
  }

  lemma NoLevels(depth: nat)
    ensures LevelsAll([], depth) == [] && Shallow([]) == []
  {
  }

  lemma {:induction false} CutLeavesAllShallow(elements: seq<Element>, depth: nat)
    requires depth <= MAX_DEPTH
    ensures LevelsAll(CutAll(elements, depth), depth) == Shallow(LevelsAll(WholeAll(elements), depth))
    decreases MAX_DEPTH - depth, 1, |elements|
  {
    if elements != [] {
      var n := |elements| - 1;
      CutLeavesAllShallow(elements[..n], depth);
      if !elements[n].Missing? {
        var cut, whole := CutAll(elements[..n], depth), WholeAll(elements[..n]);
        CutLeavesShallow(elements[n], depth);
        assert (cut + [Cut(elements[n], depth)])[..|cut|] == cut;
        assert (whole + [Whole(elements[n])])[..|whole|] == whole;
        ShallowBoth(LevelsAll(whole, depth), Levels(Whole(elements[n]), depth));
      }
    }
  }
}
