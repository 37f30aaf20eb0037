/** Walk over the accessibility tree with a depth limit and a node budget (android-controller/runner/.../UiNodeMapper.kt). */
module UiNodeMapper {
  import opened Common

  datatype Flags = Flags(checkable: bool, checked: bool, clickable: bool, enabled: bool, focusable: bool, focused: bool,
                         scrollable: bool, longClickable: bool, password: bool, selected: bool, visibleToUser: bool)

  datatype Rect = Rect(left: int, top: int, right: int, bottom: int)

  /** What the system says about a node; a child may be missing. */
  datatype Info = Info(text: Option<string>, resourceId: Option<string>, className: Option<string>, packageName: Option<string>,
                       contentDesc: Option<string>, flags: Flags, bounds: Rect)
  datatype Node = Node(info: Info, children: seq<Option<Node>>)

  datatype View = View(text: string, resourceId: string, className: string, packageName: string, contentDesc: string,
                         flags: Flags, bounds: Rect)
  datatype UiNode = UiNode(index: nat, view: View, children: seq<UiNode>)

  datatype Limits = Limits(maxDepth: int, maxNodes: int)

  function OrEmpty(s: Option<string>): string {
    if s.Some? then s.value else ""
  }

  function ViewOf(i: Info): View {
    View(OrEmpty(i.text), OrEmpty(i.resourceId), OrEmpty(i.className), OrEmpty(i.packageName), OrEmpty(i.contentDesc), i.flags, i.bounds)
  }

  /** A node as seen from above: the original child indices on the way to it, and what it shows. */
  datatype Seen = Seen(path: seq<nat>, view: View)

  function Under(i: nat, nodes: seq<Seen>): seq<Seen> {
    seq(|nodes|, k requires 0 <= k < |nodes| => Seen([i] + nodes[k].path, nodes[k].view))
  }

  /** The nodes at depth at most `maxDepth` in preorder. */
  function Preorder(node: Node, depth: int, maxDepth: int): seq<Seen>
    decreases node, 1
  {
    if depth > maxDepth then [] else [Seen([], ViewOf(node.info))] + PreorderBelow(node, 0, depth + 1, maxDepth)
  }

  /** Those below the children from the i-th on. */
  function PreorderBelow(node: Node, i: nat, depth: int, maxDepth: int): seq<Seen>
    requires i <= |node.children|
    decreases node, 0, |node.children| - i
  {
    if i == |node.children| then []
    else (if node.children[i].None? then [] else Under(i, Preorder(node.children[i].value, depth, maxDepth)))
         + PreorderBelow(node, i + 1, depth, maxDepth)
  }

  /** The nodes of a result in preorder, by the indices it carries. */
  function Kept(n: UiNode): seq<Seen> {
    [Seen([], n.view)] + KeptBelow(n.children)
  }

  function KeptBelow(children: seq<UiNode>): seq<Seen> {
    if children == [] then []
    else KeptBelow(children[..|children| - 1]) + Under(children[|children| - 1].index, Kept(children[|children| - 1]))
  }

  function KeptOf(r: Option<UiNode>): seq<Seen> {
    if r.None? then [] else Kept(r.value)
  }

  // What these lists hold

  /** The node that a path of child indices leads to. */
  function At(node: Node, path: seq<nat>): Option<Node>
    decreases |path|
  {
    if path == [] then Some(node)
    else if path[0] >= |node.children| || node.children[path[0]].None? then None
    else At(node.children[path[0]].value, path[1..])
  }

  ghost predicate IsText(shown: string, said: Option<string>) {
    if said.None? then shown == "" else shown == said.value
  }

  /** Every text as the system says it, a missing one as an empty one; flags and bounds as they are. */
  ghost predicate ShowsAll(v: View, i: Info) {
    && IsText(v.text, i.text) && IsText(v.resourceId, i.resourceId) && IsText(v.className, i.className)
    && IsText(v.packageName, i.packageName) && IsText(v.contentDesc, i.contentDesc) && v.flags == i.flags && v.bounds == i.bounds
  }

  /** Before in preorder: the first way is part of the second, or they part at a smaller child index. */
  predicate IsEarlier(p: seq<nat>, q: seq<nat>)
    decreases |p|
  {
    q != [] && (p == [] || p[0] < q[0] || (p[0] == q[0] && IsEarlier(p[1..], q[1..])))
  }

  lemma InUnder(i: nat, nodes: seq<Seen>, x: Seen)
    ensures x in Under(i, nodes) <==> x.path != [] && x.path[0] == i && Seen(x.path[1..], x.view) in nodes
  {
    if x in Under(i, nodes) {
      var k :| 0 <= k < |nodes| && Under(i, nodes)[k] == x;
      assert ([i] + nodes[k].path)[1..] == nodes[k].path;
    }
    if x.path != [] && x.path[0] == i && Seen(x.path[1..], x.view) in nodes {
      var k :| 0 <= k < |nodes| && nodes[k] == Seen(x.path[1..], x.view);
      assert [i] + nodes[k].path == x.path && Under(i, nodes)[k] == x;
    }
  }

  /** The list of a tree holds exactly its nodes down to the depth limit, each under the path that leads to it, with everything the
      system says about it. */
  lemma {:induction false} InPreorder(node: Node, depth: int, maxDepth: int, x: Seen)
    ensures x in Preorder(node, depth, maxDepth)
            <==> depth + |x.path| <= maxDepth && At(node, x.path).Some? && ShowsAll(x.view, At(node, x.path).value.info)
    decreases node, 1
  {
    InPreorderBelow(node, 0, depth + 1, maxDepth, x);
  }

  lemma {:induction false} InPreorderBelow(node: Node, i: nat, depth: int, maxDepth: int, x: Seen)
    requires i <= |node.children|
    ensures x in PreorderBelow(node, i, depth, maxDepth)
            <==> x.path != [] && x.path[0] >= i && depth + |x.path| - 1 <= maxDepth
                 && At(node, x.path).Some? && ShowsAll(x.view, At(node, x.path).value.info)
    decreases node, 0, |node.children| - i
  {
    hide ShowsAll, Under;
    if i < |node.children| {
      InPreorderBelow(node, i + 1, depth, maxDepth, x);
      if node.children[i].Some? {
        var nodes := Preorder(node.children[i].value, depth, maxDepth);
        InUnder(i, nodes, x);
        if x.path != [] { InPreorder(node.children[i].value, depth, maxDepth, Seen(x.path[1..], x.view)); }
      }
    }
  }

  ghost predicate AreOrdered(nodes: seq<Seen>) {
    forall j, k :: 0 <= j < k < |nodes| ==> IsEarlier(nodes[j].path, nodes[k].path)
  }

  /** and in preorder, none of them twice. */
  lemma {:induction false} PreorderIsOrdered(node: Node, depth: int, maxDepth: int)
    ensures AreOrdered(Preorder(node, depth, maxDepth))
    decreases node, 1
  {
    BelowIsOrdered(node, 0, depth + 1, maxDepth);
    var below := PreorderBelow(node, 0, depth + 1, maxDepth);
    forall k | 0 <= k < |below| ensures below[k].path != [] {
      assert below[k] in below;
      InPreorderBelow(node, 0, depth + 1, maxDepth, below[k]);
    }
  }

  lemma {:induction false} BelowIsOrdered(node: Node, i: nat, depth: int, maxDepth: int)
    requires i <= |node.children|
    ensures AreOrdered(PreorderBelow(node, i, depth, maxDepth))
    decreases node, 0, |node.children| - i
  {
    if i < |node.children| {
      BelowIsOrdered(node, i + 1, depth, maxDepth);
      if node.children[i].Some? {
        var nodes, rest := Preorder(node.children[i].value, depth, maxDepth), PreorderBelow(node, i + 1, depth, maxDepth);
        PreorderIsOrdered(node.children[i].value, depth, maxDepth);
        forall k | 0 <= k < |rest| ensures rest[k].path != [] && rest[k].path[0] > i {
          assert rest[k] in rest;
          InPreorderBelow(node, i + 1, depth, maxDepth, rest[k]);
        }
        OrderedInTurn(i, nodes, rest);
      }
    }
  }

  lemma OrderedInTurn(i: nat, nodes: seq<Seen>, rest: seq<Seen>)
    requires AreOrdered(nodes) && AreOrdered(rest) && forall k :: 0 <= k < |rest| ==> rest[k].path != [] && rest[k].path[0] > i
    ensures AreOrdered(Under(i, nodes) + rest)
  {
    var front := Under(i, nodes);
    forall k | 0 <= k < |nodes| ensures front[k].path[0] == i && front[k].path[1..] == nodes[k].path {}
    forall j, k | 0 <= j < k < |front| ensures IsEarlier(front[j].path, front[k].path) {
      assert IsEarlier(nodes[j].path, nodes[k].path);
    }
  }

  /** In the result, following child indices from n leads to a node with this view. */
  ghost predicate LeadsTo(n: UiNode, path: seq<nat>, view: View)
    decreases |path|
  {
    if path == [] then n.view == view
    else exists k :: 0 <= k < |n.children| && n.children[k].index == path[0] && LeadsTo(n.children[k], path[1..], view)
  }

  /** The list of a result holds exactly its nodes, under the indices they carry. */
  lemma {:induction false} InKept(n: UiNode, x: Seen)
    ensures x in Kept(n) <==> LeadsTo(n, x.path, x.view)
    decreases n, |n.children| + 1
  {
    InKeptBelow(n, |n.children|, x);
    assert n.children[..|n.children|] == n.children;
  }

  lemma {:induction false} InKeptBelow(n: UiNode, m: nat, x: Seen)
    requires m <= |n.children|
    ensures x in KeptBelow(n.children[..m])
            <==> x.path != [] && exists k :: 0 <= k < m && n.children[k].index == x.path[0] && LeadsTo(n.children[k], x.path[1..], x.view)
    decreases n, m
  {
    if m > 0 {
      var child := n.children[m - 1];
      assert n.children[..m][..m - 1] == n.children[..m - 1];
      InKeptBelow(n, m - 1, x);
      InUnder(child.index, Kept(child), x);
      if x.path != [] { InKept(child, Seen(x.path[1..], x.view)); }
    }
  }

  /** The budget leaves the first nodes. */
  lemma BudgetTakesFirst(nodes: seq<Seen>, maxNodes: nat)
    ensures Affordable(nodes, 0, maxNodes) == nodes[..if |nodes| <= maxNodes then |nodes| else maxNodes]
  {
  }

  /** What the budget leaves of some nodes when `visited` were seen before. */
  function Affordable(nodes: seq<Seen>, visited: int, maxNodes: int): seq<Seen> {
    if visited + |nodes| <= maxNodes then nodes
    else if visited >= maxNodes then []
    else nodes[..maxNodes - visited]
  }

  /** The count after walking over some nodes; past the budget it no longer says how many. */
  ghost predicate Counts(before: int, after: int, nodes: seq<Seen>, maxNodes: int) {
    if before + |nodes| <= maxNodes then after == before + |nodes| else after > maxNodes
  }

  /** What is affordable of two groups in a row, when the count after the first says where the second begins. */
  lemma AffordInTurn(first: seq<Seen>, second: seq<Seen>, start: int, middle: int, after: int, maxNodes: int)
    requires Counts(start, middle, first, maxNodes) && Counts(middle, after, second, maxNodes)
    ensures Affordable(first, start, maxNodes) + Affordable(second, middle, maxNodes) == Affordable(first + second, start, maxNodes)
    ensures Counts(start, after, first + second, maxNodes)
  {
    if start + |first| <= maxNodes {
      assert middle < maxNodes < middle + |second| ==> (first + second)[..maxNodes - start] == first + second[..maxNodes - middle];
    } else if start < maxNodes {
      assert (first + second)[..maxNodes - start] == first[..maxNodes - start];
    }
  }

  lemma UnderAffordable(i: nat, nodes: seq<Seen>, visited: int, maxNodes: int)
    ensures |Under(i, nodes)| == |nodes| && Under(i, []) == []
    ensures Under(i, Affordable(nodes, visited, maxNodes)) == Affordable(Under(i, nodes), visited, maxNodes)
  {
  }

  /** Between two rounds of the loop over the children: what is kept is what is affordable of what was walked over. */
  ghost predicate LoopInv(children: seq<UiNode>, walked: seq<Seen>, start: int, visited: int, maxNodes: int) {
    KeptBelow(children) == Affordable(walked, start, maxNodes) && Counts(start, visited, walked, maxNodes)
  }

  lemma ChildMapped(children: seq<UiNode>, walked: seq<Seen>, i: nat, nodes: seq<Seen>, mapped: Option<UiNode>,
                    start: int, middle: int, after: int, maxNodes: int)
    requires LoopInv(children, walked, start, middle, maxNodes)
    requires KeptOf(mapped) == Affordable(nodes, middle, maxNodes) && Counts(middle, after, nodes, maxNodes)
    requires mapped.Some? ==> mapped.value.index == i
    ensures LoopInv(if mapped.Some? then children + [mapped.value] else children, walked + Under(i, nodes), start, after, maxNodes)
  {
    UnderAffordable(i, nodes, middle, maxNodes);
    AffordInTurn(walked, Under(i, nodes), start, middle, after, maxNodes);
    if mapped.Some? {
      assert (children + [mapped.value])[..|children|] == children;
    }
  }

  lemma NextChild(node: Node, i: nat, depth: int, maxDepth: int, walked: seq<Seen>)
    requires i < |node.children|
    ensures walked + PreorderBelow(node, i, depth, maxDepth)
         == (if node.children[i].None? then walked else walked + Under(i, Preorder(node.children[i].value, depth, maxDepth)))
            + PreorderBelow(node, i + 1, depth, maxDepth)
  {
    hide Preorder, Under;
    assert walked + [] == walked;
  }

  /** The node itself in front of what is below it. */
  lemma RootFirst(root: Seen, below: seq<Seen>, before: int, maxNodes: int)
    ensures before + 1 <= maxNodes ==> [root] + Affordable(below, before + 1, maxNodes) == Affordable([root] + below, before, maxNodes)
    ensures before + 1 > maxNodes ==> Affordable([root] + below, before, maxNodes) == []
  {
    if before + 1 < maxNodes < before + 1 + |below| {
      assert ([root] + below)[..maxNodes - before] == [root] + below[..maxNodes - before - 1];
    }
  }

  class Mapper {
    const limits: Limits
    var visited: int

    constructor (limits: Limits)
      ensures this.limits == limits
    {
      this.limits, visited := limits, 0;
    }

    /** From the root: exactly the first `maxNodes` nodes in preorder among those at depth at most `maxDepth`, each under
        its own parent and with its own index; null exactly if that is none. */
    method MapTree(root: Node, index: nat) returns (r: Option<UiNode>)
      modifies this
      ensures KeptOf(r) == Affordable(Preorder(root, 0, limits.maxDepth), 0, limits.maxNodes)
      ensures r.Some? ==> r.value.index == index
    {
      r := Map(root, index, 0);
    }

    method Map(node: Node, index: nat, depth: nat) returns (r: Option<UiNode>)
      modifies this
      ensures var before := if depth == 0 then 0 else old(visited); var nodes := Preorder(node, depth, limits.maxDepth);
              KeptOf(r) == Affordable(nodes, before, limits.maxNodes) && Counts(before, visited, nodes, limits.maxNodes)
      ensures r.Some? ==> r.value.index == index
      decreases node, 1
    {
      if depth == 0 { visited := 0; }
      if depth > limits.maxDepth { return None; }
      ghost var maxNodes, before, root := limits.maxNodes, visited, Seen([], ViewOf(node.info));
      ghost var all := PreorderBelow(node, 0, depth + 1, limits.maxDepth);
      RootFirst(root, all, before, maxNodes);
      visited := visited + 1;
      if visited > limits.maxNodes { return None; }

      var children := MapChildren(node, depth);
      r := Some(UiNode(index, ViewOf(node.info), children));
    }

    method MapChildren(node: Node, depth: nat) returns (children: seq<UiNode>)
      modifies this
      ensures LoopInv(children, PreorderBelow(node, 0, depth + 1, limits.maxDepth), old(visited), visited, limits.maxNodes)
      decreases node, 0
    {
      hide LoopInv, Preorder, PreorderBelow, Under;
      children := [];
      ghost var start, walked: seq<Seen> := visited, [];
      ghost var all := PreorderBelow(node, 0, depth + 1, limits.maxDepth);
      NothingWalked(node, depth + 1, limits.maxDepth, start, limits.maxNodes);
      for childIndex := 0 to |node.children|
        invariant all == walked + PreorderBelow(node, childIndex, depth + 1, limits.maxDepth)
        invariant LoopInv(children, walked, start, visited, limits.maxNodes)
      {
        NextChild(node, childIndex, depth + 1, limits.maxDepth, walked);
        if node.children[childIndex].None? { continue; }
        ghost var before, nodes := visited, Preorder(node.children[childIndex].value, depth + 1, limits.maxDepth);
        var mapped := Map(node.children[childIndex].value, childIndex, depth + 1);
        ChildMapped(children, walked, childIndex, nodes, mapped, start, before, visited, limits.maxNodes);
        walked := walked + Under(childIndex, nodes);
        if mapped.None? { continue; }
        children := children + [mapped.value];
      }
      assert walked + [] == walked;
    }
  }

  lemma NothingWalked(node: Node, depth: int, maxDepth: int, start: int, maxNodes: int)
    ensures LoopInv([], [], start, start, maxNodes) && PreorderBelow(node, |node.children|, depth, maxDepth) == []
  {
  }
}
