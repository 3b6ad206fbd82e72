/**
 The part of the document tree the style watcher looks at.

 A node is either an element, which has an identity and an ordered list of
 child nodes, or a non-element node (text, comment), which has an identity
 and no children. Document order is the pre-order walk of the tree.
 */
module Dom {

  datatype Option<+T> = None | Some(value: T)

  datatype Node =
    | Element(id: nat, children: seq<Node>)
    | NonElement(id: nat)

  /** The node followed by all of its descendants, in document order. */
  function Subtree(n: Node): (r: seq<Node>)
    decreases n
    ensures |r| >= 1 && r[0] == n
  {
    match n
    case Element(_, cs) => [n] + Forest(cs)
    case NonElement(_) => [n]
  }

  /** The subtrees of a list of sibling nodes, one after the other. */
  function Forest(ns: seq<Node>): seq<Node>
    decreases ns
  {
    if ns == [] then [] else Subtree(ns[0]) + Forest(ns[1..])
  }

  /** Every node strictly below `n`, in document order (the root excluded). */
  function Descendants(n: Node): seq<Node>
  {
    match n
    case Element(_, cs) => Forest(cs)
    case NonElement(_) => []
  }

  /** The elements of `s` that satisfy `p`, in the order of `s` (Array.prototype.filter). */
  function Filter(s: seq<Node>, p: Node -> bool): (r: seq<Node>)
    ensures |r| <= |s|
    ensures forall x :: x in r ==> x in s && p(x)
  {
    if s == [] then [] else (if p(s[0]) then [s[0]] else []) + Filter(s[1..], p)
  }

  /** `.filter` drops nothing that satisfies the predicate. */
  lemma {:induction false} FilterKeeps(s: seq<Node>, p: Node -> bool, x: Node)
    requires x in s && p(x)
    ensures x in Filter(s, p)
  {
    if s[0] != x {
      FilterKeeps(s[1..], p, x);
    }
  }

  /** The test `querySelectorAll` applies to each descendant: an element that matches the selector. */
  function SelectorMatch(matches: Node -> bool): Node -> bool
  {
    (x: Node) => x.Element? && matches(x)
  }

  /**
   `root.querySelectorAll(selector)`: the descendants of `root` (not `root`
   itself) that are elements matching the selector, in document order.
   */
  function QuerySelectorAll(root: Node, matches: Node -> bool): (r: seq<Node>)
    ensures forall x :: x in r ==> x in Descendants(root) && x.Element? && matches(x)
  {
    Filter(Descendants(root), SelectorMatch(matches))
  }

  lemma {:induction false} FilterConcat(a: seq<Node>, b: seq<Node>, p: Node -> bool)
    ensures Filter(a + b, p) == Filter(a, p) + Filter(b, p)
  {
    if a == [] {
      assert a + b == b;
    } else {
      assert (a + b)[0] == a[0];
      assert (a + b)[1..] == a[1..] + b;
      FilterConcat(a[1..], b, p);
    }
  }

  /** Filtering by `p` and then by `q` is filtering once by their conjunction `pq`. */
  lemma {:induction false} FilterFilter(s: seq<Node>, p: Node -> bool, q: Node -> bool, pq: Node -> bool)
    requires forall x :: x in s ==> pq(x) == (p(x) && q(x))
    ensures Filter(Filter(s, p), q) == Filter(s, pq)
  {
    if s != [] {
      FilterFilter(s[1..], p, q, pq);
      var rest := Filter(s[1..], p);
      if p(s[0]) {
        assert Filter(s, p) == [s[0]] + rest;
        FilterConcat([s[0]], rest, q);
      } else {
        assert Filter(s, p) == rest;
      }
    }
  }

  /** `f` applied to each node, the results concatenated in input order. */
  function FlatMap(nodes: seq<Node>, f: Node -> seq<Node>): seq<Node>
  {
    if nodes == [] then [] else f(nodes[0]) + FlatMap(nodes[1..], f)
  }

  lemma {:induction false} FlatMapConcat(a: seq<Node>, b: seq<Node>, f: Node -> seq<Node>)
    ensures FlatMap(a + b, f) == FlatMap(a, f) + FlatMap(b, f)
  {
    if a == [] {
      assert a + b == b;
    } else {
      assert (a + b)[0] == a[0];
      assert (a + b)[1..] == a[1..] + b;
      FlatMapConcat(a[1..], b, f);
    }
  }

  lemma {:induction false} FlatMapMembership(nodes: seq<Node>, f: Node -> seq<Node>, x: Node)
    ensures x in FlatMap(nodes, f) <==> exists i :: 0 <= i < |nodes| && x in f(nodes[i])
  {
    if nodes != [] {
      var rest := nodes[1..];
      FlatMapMembership(rest, f, x);
      assert forall j :: 0 <= j < |rest| ==> rest[j] == nodes[j + 1];
    }
  }
}
