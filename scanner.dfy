/**
 The subtree scanner: `getAllManageableStyles` in watch.ts.

 Given the nodes of one mutation record's added or removed list, it returns
 every manageable style element at or below each of them. Which nodes are
 manageable and which match the style selector is decided by the style
 manager, which is not part of this model; both are given here as
 uninterpreted predicates in a `StyleRules` value.
 */
module Scanner {
  import opened Dom

  /**
   The two capabilities borrowed from the style manager: `shouldManageStyle`
   and the test "matches STYLE_SELECTOR" that `querySelectorAll` applies.
   */
  datatype StyleRules = StyleRules(shouldManageStyle: Node -> bool, matchesStyleSelector: Node -> bool)

  /**
   What one node contributes: nothing for a non-element; for an element, the
   element itself if the style manager accepts it, then every descendant that
   matches the selector and is accepted, in document order.
   */
  function ManageableStylesOf(node: Node, rules: StyleRules): (r: seq<Node>)
    ensures forall x :: x in r ==> x.Element? && rules.shouldManageStyle(x)
  {
    if node.Element? then
      (if rules.shouldManageStyle(node) then [node] else [])
      + Filter(QuerySelectorAll(node, rules.matchesStyleSelector), rules.shouldManageStyle)
    else
      []
  }

  /**
   A node is in one node's contribution iff that node is an element and the
   style manager accepts the candidate, which is either the node itself or a
   descendant element matching the selector.
   */
  lemma ManageableStylesOfMembership(node: Node, rules: StyleRules, x: Node)
    ensures x in ManageableStylesOf(node, rules) <==>
      && node.Element?
      && rules.shouldManageStyle(x)
      && (x == node || (x in Descendants(node) && x.Element? && rules.matchesStyleSelector(x)))
  {
    if node.Element? && rules.shouldManageStyle(x) && x != node && x in Descendants(node) && x.Element? && rules.matchesStyleSelector(x) {
      var found := QuerySelectorAll(node, rules.matchesStyleSelector);
      FilterKeeps(Descendants(node), SelectorMatch(rules.matchesStyleSelector), x);
      FilterKeeps(found, rules.shouldManageStyle, x);
    }
  }

  /** The per-node expansion as a function value. */
  function Expansion(rules: StyleRules): Node -> seq<Node>
  {
    node => ManageableStylesOf(node, rules)
  }

  /** The specification of `getAllManageableStyles`: the contributions of the nodes, in input order. */
  function ManageableStyles(nodes: seq<Node>, rules: StyleRules): (r: seq<Node>)
    ensures forall x :: x in r ==> x.Element? && rules.shouldManageStyle(x)
  {
    var r := FlatMap(nodes, Expansion(rules));
    assert forall x :: x in r ==> x.Element? && rules.shouldManageStyle(x) by {
      forall x | x in r
        ensures x.Element? && rules.shouldManageStyle(x)
      {
        FlatMapMembership(nodes, Expansion(rules), x);
      }
    }
    r
  }

  /**
   `getAllManageableStyles`: walks the node list once, pushing each element's
   contribution onto `results`.
   */
  method GetAllManageableStyles(nodes: seq<Node>, rules: StyleRules) returns (results: seq<Node>)
    ensures results == ManageableStyles(nodes, rules)
  {
    results := [];
    var i := 0;
    while i < |nodes|
      invariant 0 <= i <= |nodes|
      invariant results == ManageableStyles(nodes[..i], rules)
    {
      results := PushManageableStyles(results, nodes[i], rules);
      PrefixStep(nodes, i, rules);
      FlatMapConcat(nodes[..i], [nodes[i]], Expansion(rules));
      i := i + 1;
    }
    assert nodes[..i] == nodes;
  }

  /**
   The body of the `forEach` callback: for an element, push it if the style
   manager accepts it, then push its accepted selector matches.
   */
  method PushManageableStyles(results: seq<Node>, node: Node, rules: StyleRules) returns (pushed: seq<Node>)
    ensures pushed == results + ManageableStylesOf(node, rules)
  {
    pushed := results;
    if node.Element? {
      if rules.shouldManageStyle(node) {
        pushed := pushed + [node];
      }
      pushed := pushed + Filter(QuerySelectorAll(node, rules.matchesStyleSelector), rules.shouldManageStyle);
    }
  }

  lemma PrefixStep(s: seq<Node>, i: nat, rules: StyleRules)
    requires i < |s|
    ensures s[..i + 1] == s[..i] + [s[i]]
    ensures ManageableStyles([s[i]], rules) == ManageableStylesOf(s[i], rules)
  {
    SingleNodeExpansion(s[i], rules);
  }

  lemma SingleNodeExpansion(node: Node, rules: StyleRules)
    ensures ManageableStyles([node], rules) == ManageableStylesOf(node, rules)
  {
    assert FlatMap([node], Expansion(rules)) == Expansion(rules)(node) + FlatMap([], Expansion(rules));
  }

  /** Expansion distributes over concatenation, so it keeps the input order. */
  lemma ManageableStylesConcat(a: seq<Node>, b: seq<Node>, rules: StyleRules)
    ensures ManageableStyles(a + b, rules) == ManageableStyles(a, rules) + ManageableStyles(b, rules)
  {
    FlatMapConcat(a, b, Expansion(rules));
  }

  /** A node list made only of text and comment nodes expands to nothing. */
  lemma {:induction false} NonElementsExpandToNothing(nodes: seq<Node>, rules: StyleRules)
    requires forall i :: 0 <= i < |nodes| ==> nodes[i].NonElement?
    ensures ManageableStyles(nodes, rules) == []
  {
    if nodes != [] {
      NonElementsExpandToNothing(nodes[1..], rules);
      assert Expansion(rules)(nodes[0]) == [];
    }
  }

  /** A style element belongs to the expansion of a list iff it belongs to the expansion of one of its nodes. */
  lemma ManageableStylesMembership(nodes: seq<Node>, rules: StyleRules, x: Node)
    ensures x in ManageableStyles(nodes, rules) <==>
      exists i :: 0 <= i < |nodes| && x in ManageableStylesOf(nodes[i], rules)
  {
    FlatMapMembership(nodes, Expansion(rules), x);
    assert forall i :: 0 <= i < |nodes| ==> Expansion(rules)(nodes[i]) == ManageableStylesOf(nodes[i], rules);
  }

  /**
   When the selector covers every manageable element below an added element,
   the element expands to exactly the manageable elements of its subtree
   (itself included), in document order.
   */
  lemma ElementExpandsToManagedSubtree(node: Node, rules: StyleRules, managedElement: Node -> bool)
    requires node.Element?
    requires forall x :: managedElement(x) == (x.Element? && rules.shouldManageStyle(x))
    requires forall x :: x in Descendants(node) && x.Element? && rules.shouldManageStyle(x) ==> rules.matchesStyleSelector(x)
    ensures ManageableStylesOf(node, rules) == Filter(Subtree(node), managedElement)
  {
    var below := Descendants(node);
    assert Subtree(node) == [node] + below;
    FilterConcat([node], below, managedElement);
    FilterFilter(below, SelectorMatch(rules.matchesStyleSelector), rules.shouldManageStyle, managedElement);
  }
}
