/**
 The change watcher of watch.ts: the body of the mutation-observer callback,
 which folds one batch of mutation records into created, updated and
 removed style lists and suppresses empty batches, and the module-level
 observer handle that `watchForStyleChanges` and
 `stopWatchingForStyleChanges` replace and clear.
 */
module Watch {
  import opened Dom
  import opened Scanner

  /** One platform mutation record: the added and removed node lists and the target, when there is one. */
  datatype MutationRecord = MutationRecord(addedNodes: seq<Node>, removedNodes: seq<Node>, target: Option<Node>)

  /** The value handed to the `update` callback. */
  datatype ChangedStyles = ChangedStyles(created: seq<Node>, updated: seq<Node>, removed: seq<Node>)

  /** Which node list of a record a fold reads. */
  datatype Side = Added | Removed

  function NodesOn(m: MutationRecord, side: Side): seq<Node>
  {
    match side
    case Added => m.addedNodes
    case Removed => m.removedNodes
  }

  /**
   `mutations.reduce((acc, m) => acc.concat(part(m)), [])`: a left fold that
   appends each record's part in record order.
   */
  function Collect(mutations: seq<MutationRecord>, part: MutationRecord -> seq<Node>): (r: seq<Node>)
    ensures forall x :: x in r ==> exists i :: 0 <= i < |mutations| && x in part(mutations[i])
  {
    if mutations == [] then []
    else
      var last := |mutations| - 1;
      Collect(mutations[..last], part) + part(mutations[last])
  }

  /** The parts of the records concatenated from the front (a right fold), as a reference for `Collect`. */
  function ConcatenatedParts(mutations: seq<MutationRecord>, part: MutationRecord -> seq<Node>): seq<Node>
  {
    if mutations == [] then [] else part(mutations[0]) + ConcatenatedParts(mutations[1..], part)
  }

  lemma TakeLast(mutations: seq<MutationRecord>, b: seq<MutationRecord>)
    requires b != []
    ensures (mutations + b)[..|mutations + b| - 1] == mutations + b[..|b| - 1]
    ensures (mutations + b)[|mutations + b| - 1] == b[|b| - 1]
  {
  }

  lemma SnocIndex(mutations: seq<MutationRecord>)
    requires mutations != []
    ensures forall i :: 0 <= i < |mutations| - 1 ==> mutations[..|mutations| - 1][i] == mutations[i]
  {
  }

  /** The fold of `a + b` is the fold of `a` followed by the fold of `b`. */
  lemma {:induction false} CollectConcat(a: seq<MutationRecord>, b: seq<MutationRecord>, part: MutationRecord -> seq<Node>)
    ensures Collect(a + b, part) == Collect(a, part) + Collect(b, part)
    decreases |b|
  {
    if b == [] {
      assert a + b == a;
    } else {
      TakeLast(a, b);
      CollectConcat(a, b[..|b| - 1], part);
    }
  }

  /** The left fold and the right fold build the same list. */
  lemma {:induction false} CollectIsConcatenation(mutations: seq<MutationRecord>, part: MutationRecord -> seq<Node>)
    ensures Collect(mutations, part) == ConcatenatedParts(mutations, part)
  {
    if mutations != [] {
      var first := [mutations[0]];
      var rest := mutations[1..];
      assert mutations == first + rest;
      CollectConcat(first, rest, part);
      CollectIsConcatenation(rest, part);
      assert first[..0] == [];
    }
  }

  lemma {:induction false} CollectMembership(mutations: seq<MutationRecord>, part: MutationRecord -> seq<Node>, x: Node)
    ensures x in Collect(mutations, part) <==> exists i :: 0 <= i < |mutations| && x in part(mutations[i])
  {
    if mutations != [] {
      CollectMembership(mutations[..|mutations| - 1], part, x);
      SnocIndex(mutations);
    }
  }

  lemma {:induction false} CollectEmpty(mutations: seq<MutationRecord>, part: MutationRecord -> seq<Node>)
    ensures Collect(mutations, part) == [] <==> forall i :: 0 <= i < |mutations| ==> part(mutations[i]) == []
  {
    if mutations != [] {
      CollectEmpty(mutations[..|mutations| - 1], part);
      SnocIndex(mutations);
    }
  }

  lemma {:induction false} CollectBound(mutations: seq<MutationRecord>, part: MutationRecord -> seq<Node>)
    requires forall i :: 0 <= i < |mutations| ==> |part(mutations[i])| <= 1
    ensures |Collect(mutations, part)| <= |mutations|
  {
    if mutations != [] {
      SnocIndex(mutations);
      CollectBound(mutations[..|mutations| - 1], part);
    }
  }

  /** What a record adds to `created` (side `Added`) or `removed` (side `Removed`). */
  function ExpandedSide(side: Side, rules: StyleRules): MutationRecord -> seq<Node>
  {
    m => ManageableStyles(NodesOn(m, side), rules)
  }

  /**
   `createdStyles` (side `Added`) and `removedStyles` (side `Removed`): the
   expansions of the records' node lists, folded in record order.
   */
  function Gathered(mutations: seq<MutationRecord>, side: Side, rules: StyleRules): (r: seq<Node>)
    ensures forall x :: x in r ==> x.Element? && rules.shouldManageStyle(x)
  {
    var r := Collect(mutations, ExpandedSide(side, rules));
    assert forall x :: x in r ==> x.Element? && rules.shouldManageStyle(x) by {
      forall x | x in r
        ensures x.Element? && rules.shouldManageStyle(x)
      {
        CollectMembership(mutations, ExpandedSide(side, rules), x);
      }
    }
    r
  }

  /** The target of a record when it is present and the style manager accepts it. */
  predicate ManagedTarget(m: MutationRecord, rules: StyleRules)
  {
    m.target.Some? && rules.shouldManageStyle(m.target.value)
  }

  /** What a record adds to `updated`: its target, when present and accepted, whatever kind of mutation it reports. */
  function TargetPart(rules: StyleRules): MutationRecord -> seq<Node>
  {
    m => if ManagedTarget(m, rules) then [m.target.value] else []
  }

  /**
   `updatedStyles`: the records are filtered on a present, accepted target and
   the targets pushed in record order.
   */
  function UpdatedStyles(mutations: seq<MutationRecord>, rules: StyleRules): (r: seq<Node>)
    ensures |r| <= |mutations|
    ensures forall x :: x in r ==> rules.shouldManageStyle(x)
  {
    var r := Collect(mutations, TargetPart(rules));
    assert |r| <= |mutations| by {
      CollectBound(mutations, TargetPart(rules));
    }
    assert forall x :: x in r ==> rules.shouldManageStyle(x) by {
      forall x | x in r
        ensures rules.shouldManageStyle(x)
      {
        CollectMembership(mutations, TargetPart(rules), x);
      }
    }
    r
  }

  /** A record that contributes nothing to any of the three lists. */
  predicate Silent(m: MutationRecord, rules: StyleRules)
  {
    && ManageableStyles(m.addedNodes, rules) == []
    && ManageableStyles(m.removedNodes, rules) == []
    && !ManagedTarget(m, rules)
  }

  /**
   The observer callback: build the three lists and produce a notification
   only when at least one of them is non-empty.
   */
  function OnStyleMutations(mutations: seq<MutationRecord>, rules: StyleRules): (r: Option<ChangedStyles>)
    ensures r.Some? ==> |r.value.created| + |r.value.updated| + |r.value.removed| > 0
    ensures r.Some? ==> |r.value.updated| <= |mutations|
    ensures r.Some? ==> forall x :: x in r.value.created ==> rules.shouldManageStyle(x)
    ensures r.Some? ==> forall x :: x in r.value.removed ==> rules.shouldManageStyle(x)
    ensures r.Some? ==> forall x :: x in r.value.updated ==> rules.shouldManageStyle(x)
  {
    var created := Gathered(mutations, Added, rules);
    var removed := Gathered(mutations, Removed, rules);
    var updated := UpdatedStyles(mutations, rules);
    if |created| + |removed| + |updated| > 0 then
      Some(ChangedStyles(created, updated, removed))
    else
      None
  }

  /** The created and removed folds equal the records' expansions concatenated in record order. */
  lemma GatheredIsConcatenation(mutations: seq<MutationRecord>, side: Side, rules: StyleRules)
    ensures Gathered(mutations, side, rules) == ConcatenatedParts(mutations, ExpandedSide(side, rules))
  {
    CollectIsConcatenation(mutations, ExpandedSide(side, rules));
  }

  /** The created and removed folds distribute over concatenation of batches. */
  lemma GatheredConcat(a: seq<MutationRecord>, b: seq<MutationRecord>, side: Side, rules: StyleRules)
    ensures Gathered(a + b, side, rules) == Gathered(a, side, rules) + Gathered(b, side, rules)
  {
    CollectConcat(a, b, ExpandedSide(side, rules));
  }

  /** The updated fold distributes over concatenation of batches. */
  lemma UpdatedStylesConcat(a: seq<MutationRecord>, b: seq<MutationRecord>, rules: StyleRules)
    ensures UpdatedStyles(a + b, rules) == UpdatedStyles(a, rules) + UpdatedStyles(b, rules)
  {
    CollectConcat(a, b, TargetPart(rules));
  }

  /** `created` (or `removed`) holds exactly the expansions of the records' added (or removed) lists. */
  lemma GatheredMembership(mutations: seq<MutationRecord>, side: Side, rules: StyleRules, x: Node)
    ensures x in Gathered(mutations, side, rules) <==>
      exists i :: 0 <= i < |mutations| && x in ManageableStyles(NodesOn(mutations[i], side), rules)
  {
    CollectMembership(mutations, ExpandedSide(side, rules), x);
    assert forall i :: 0 <= i < |mutations| ==>
      ExpandedSide(side, rules)(mutations[i]) == ManageableStyles(NodesOn(mutations[i], side), rules);
  }

  /** `updated` holds exactly the present targets the style manager accepts. */
  lemma UpdatedStylesMembership(mutations: seq<MutationRecord>, rules: StyleRules, x: Node)
    ensures x in UpdatedStyles(mutations, rules) <==>
      exists i :: 0 <= i < |mutations| && mutations[i].target == Some(x) && rules.shouldManageStyle(x)
  {
    CollectMembership(mutations, TargetPart(rules), x);
    assert forall i :: 0 <= i < |mutations| ==>
      (x in TargetPart(rules)(mutations[i]) <==> mutations[i].target == Some(x) && rules.shouldManageStyle(x));
  }

  /** A created or removed fold is empty iff every record adds nothing to it. */
  lemma GatheredEmpty(mutations: seq<MutationRecord>, side: Side, rules: StyleRules)
    ensures Gathered(mutations, side, rules) == [] <==>
      forall i :: 0 <= i < |mutations| ==> ManageableStyles(NodesOn(mutations[i], side), rules) == []
  {
    CollectEmpty(mutations, ExpandedSide(side, rules));
    assert forall i :: 0 <= i < |mutations| ==>
      ExpandedSide(side, rules)(mutations[i]) == ManageableStyles(NodesOn(mutations[i], side), rules);
  }

  /** `updated` is empty iff no record has a present, accepted target. */
  lemma UpdatedStylesEmpty(mutations: seq<MutationRecord>, rules: StyleRules)
    ensures UpdatedStyles(mutations, rules) == [] <==>
      forall i :: 0 <= i < |mutations| ==> !ManagedTarget(mutations[i], rules)
  {
    CollectEmpty(mutations, TargetPart(rules));
    assert forall i :: 0 <= i < |mutations| ==>
      (TargetPart(rules)(mutations[i]) == [] <==> !ManagedTarget(mutations[i], rules));
  }

  lemma GatheredSingle(m: MutationRecord, side: Side, rules: StyleRules)
    ensures Gathered([m], side, rules) == ManageableStyles(NodesOn(m, side), rules)
  {
    assert [m][..0] == [];
    assert Collect([m], ExpandedSide(side, rules)) == [] + ExpandedSide(side, rules)(m);
  }

  lemma UpdatedSingle(m: MutationRecord, rules: StyleRules)
    ensures UpdatedStyles([m], rules) == if ManagedTarget(m, rules) then [m.target.value] else []
  {
    assert [m][..0] == [];
    assert Collect([m], TargetPart(rules)) == [] + TargetPart(rules)(m);
  }

  /** A batch produces a notification iff one of its records is not silent. */
  lemma NotifiesIffSomeRecordCounts(mutations: seq<MutationRecord>, rules: StyleRules)
    ensures OnStyleMutations(mutations, rules).Some? <==>
      exists i :: 0 <= i < |mutations| && !Silent(mutations[i], rules)
  {
    GatheredEmpty(mutations, Added, rules);
    GatheredEmpty(mutations, Removed, rules);
    UpdatedStylesEmpty(mutations, rules);
  }

  /**
   When every added and removed node is a text or comment node, the batch
   still notifies iff some record's target is an accepted style: inserting
   text into a managed style element reports that element as updated.
   */
  lemma NonElementBatch(mutations: seq<MutationRecord>, rules: StyleRules)
    requires forall i, j :: 0 <= i < |mutations| && 0 <= j < |mutations[i].addedNodes| ==> mutations[i].addedNodes[j].NonElement?
    requires forall i, j :: 0 <= i < |mutations| && 0 <= j < |mutations[i].removedNodes| ==> mutations[i].removedNodes[j].NonElement?
    ensures OnStyleMutations(mutations, rules).Some? <==>
      exists i :: 0 <= i < |mutations| && ManagedTarget(mutations[i], rules)
  {
    forall i | 0 <= i < |mutations|
      ensures ManageableStyles(mutations[i].addedNodes, rules) == []
      ensures ManageableStyles(mutations[i].removedNodes, rules) == []
    {
      NonElementsExpandToNothing(mutations[i].addedNodes, rules);
      NonElementsExpandToNothing(mutations[i].removedNodes, rules);
    }
    NotifiesIffSomeRecordCounts(mutations, rules);
  }

  /**
   One batch can report the same style element as created and as updated:
   one record inserts it, a later one changes its `rel` attribute.
   */
  lemma CreatedAndUpdatedMayOverlap(rules: StyleRules, style: Node, parent: Node)
    requires style.Element? && style.children == []
    requires rules.shouldManageStyle(style) && !rules.shouldManageStyle(parent)
    ensures var r := OnStyleMutations([MutationRecord([style], [], Some(parent)), MutationRecord([], [], Some(style))], rules);
      r.Some? && r.value.created == [style] && r.value.updated == [style]
  {
    var inserted := MutationRecord([style], [], Some(parent));
    var changed := MutationRecord([], [], Some(style));
    assert [inserted, changed] == [inserted] + [changed];
    assert Descendants(style) == [];
    assert ManageableStylesOf(style, rules) == [style];
    SingleNodeExpansion(style, rules);
    assert ManageableStyles([], rules) == [];
    GatheredConcat([inserted], [changed], Added, rules);
    GatheredSingle(inserted, Added, rules);
    GatheredSingle(changed, Added, rules);
    UpdatedStylesConcat([inserted], [changed], rules);
    UpdatedSingle(inserted, rules);
    UpdatedSingle(changed, rules);
  }

  /** The options `observe` is called with: child lists and the `rel` attribute, over the whole subtree. */
  datatype ObserveOptions = ObserveOptions(childList: bool, subtree: bool, attributes: bool, attributeFilter: seq<string>)

  const StyleObserveOptions := ObserveOptions(true, true, true, ["rel"])

  /** The identity of a caller-supplied `update` function. */
  type Callback = nat

  /** A `MutationObserver` created by `watchForStyleChanges`: its serial number, callback and options. */
  datatype Observer = Observer(id: nat, update: Callback, options: ObserveOptions)

  /** A request this file makes of the platform. */
  datatype PlatformCall = Observe(observer: nat) | Disconnect(observer: nat)

  /** What the callback is invoked with: which `update` fires, and with what. */
  datatype Notification = Notification(update: Callback, styles: ChangedStyles)

  /** The observers that a sequence of platform calls leaves connected. */
  function Connected(calls: seq<PlatformCall>): (r: set<nat>)
    ensures forall id :: id in r ==> Observe(id) in calls
  {
    if calls == [] then {}
    else
      var last := |calls| - 1;
      var before := Connected(calls[..last]);
      match calls[last]
      case Observe(id) => before + {id}
      case Disconnect(id) => before - {id}
  }

  lemma ConnectedAppend(calls: seq<PlatformCall>, c: PlatformCall)
    ensures Connected(calls + [c]) ==
      if c.Observe? then Connected(calls) + {c.observer} else Connected(calls) - {c.observer}
  {
    assert (calls + [c])[..|calls|] == calls;
  }

  /** The disconnect call made for the observer in the handle, if there is one. */
  function DisconnectFor(handle: Option<Observer>): seq<PlatformCall>
  {
    if handle.Some? then [Disconnect(handle.value.id)] else []
  }

  /**
   The module-level `styleChangeObserver` handle, with a counter of observers
   created so far and the log of observe and disconnect calls it has issued.
   */
  class StyleWatcher {
    var styleChangeObserver: Option<Observer>
    var generation: nat
    var calls: seq<PlatformCall>

    /**
     At most one observer is connected: the one in the handle, which is the
     most recently created; no other observer is connected.
     */
    ghost predicate Valid()
      reads this
    {
      && (forall c :: c in calls ==> c.observer < generation)
      && (styleChangeObserver.Some? ==> styleChangeObserver.value.id + 1 == generation)
      && Connected(calls) == (if styleChangeObserver.Some? then {styleChangeObserver.value.id} else {})
    }

    /** The module starts with `styleChangeObserver = null`. */
    constructor ()
      ensures Valid()
      ensures styleChangeObserver.None? && generation == 0 && calls == []
    {
      styleChangeObserver := None;
      generation := 0;
      calls := [];
    }

    /**
     `watchForStyleChanges(update)`: disconnect the current observer if there
     is one, then create a new observer for `update` and connect it.
     */
    method WatchForStyleChanges(update: Callback)
      requires Valid()
      modifies this
      ensures Valid()
      ensures styleChangeObserver == Some(Observer(old(generation), update, StyleObserveOptions))
      ensures generation == old(generation) + 1
      ensures calls == old(calls) + DisconnectFor(old(styleChangeObserver)) + [Observe(old(generation))]
      ensures Connected(calls) == {old(generation)}
    {
      if styleChangeObserver.Some? {
        ConnectedAppend(calls, Disconnect(styleChangeObserver.value.id));
        calls := calls + [Disconnect(styleChangeObserver.value.id)];
      }
      assert calls == old(calls) + DisconnectFor(old(styleChangeObserver));
      assert Connected(calls) == {};
      var observer := Observer(generation, update, StyleObserveOptions);
      ConnectedAppend(calls, Observe(observer.id));
      calls := calls + [Observe(observer.id)];
      styleChangeObserver := Some(observer);
      generation := generation + 1;
    }

    /** `stopWatchingForStyleChanges()`: disconnect and clear the handle; nothing happens when it is empty. */
    method StopWatchingForStyleChanges()
      requires Valid()
      modifies this
      ensures Valid()
      ensures styleChangeObserver.None?
      ensures generation == old(generation)
      ensures calls == old(calls) + DisconnectFor(old(styleChangeObserver))
      ensures Connected(calls) == {}
      ensures old(styleChangeObserver).None? ==> unchanged(this)
    {
      if styleChangeObserver.Some? {
        ConnectedAppend(calls, Disconnect(styleChangeObserver.value.id));
        calls := calls + [Disconnect(styleChangeObserver.value.id)];
        styleChangeObserver := None;
      }
    }

    /**
     The platform delivers a batch to a connected observer, which runs the
     callback body: the only observer that can receive it is the latest one,
     and its `update` fires once exactly when the batch is not empty.
     */
    method Deliver(observerId: nat, mutations: seq<MutationRecord>, rules: StyleRules) returns (n: Option<Notification>)
      requires Valid()
      requires observerId in Connected(calls)
      ensures styleChangeObserver.Some? && styleChangeObserver.value.id == observerId
      ensures observerId + 1 == generation
      ensures n.Some? <==> OnStyleMutations(mutations, rules).Some?
      ensures n.Some? ==> n.value == Notification(styleChangeObserver.value.update, OnStyleMutations(mutations, rules).value)
    {
      var observer := styleChangeObserver.value;
      var changes := OnStyleMutations(mutations, rules);
      if changes.Some? {
        n := Some(Notification(observer.update, changes.value));
      } else {
        n := None;
      }
    }
  }

  /** What `updated` holds for a batch whose only record has `parent` as its target. */
  function ParentUpdate(parent: Node, rules: StyleRules): seq<Node>
  {
    if rules.shouldManageStyle(parent) then [parent] else []
  }

  /**
   Inserting one childless accepted style element under `parent` reports the
   element as created; the parent, the record's target, is reported as
   updated exactly when the style manager accepts it.
   */
  lemma InsertedStyleIsCreated(style: Node, parent: Node, rules: StyleRules)
    requires style.Element? && style.children == [] && rules.shouldManageStyle(style)
    ensures OnStyleMutations([MutationRecord([style], [], Some(parent))], rules)
      == Some(ChangedStyles([style], ParentUpdate(parent, rules), []))
  {
    var batch := [MutationRecord([style], [], Some(parent))];
    assert Descendants(style) == [];
    assert ManageableStylesOf(style, rules) == [style];
    SingleNodeExpansion(style, rules);
    assert ManageableStyles([], rules) == [];
    GatheredSingle(batch[0], Added, rules);
    GatheredSingle(batch[0], Removed, rules);
    UpdatedSingle(batch[0], rules);
  }

  /**
   A client run: start with `first`, restart with `second`, deliver an
   insertion, stop twice. The first observer is disconnected by the restart,
   the batch reaches `second` only, and after stopping nothing is connected.
   */
  method RestartScenario(first: Callback, second: Callback, style: Node, parent: Node, rules: StyleRules)
    returns (firstStillConnected: bool, n: Option<Notification>, connectedAfterStop: set<nat>)
    requires style.Element? && style.children == [] && rules.shouldManageStyle(style)
    ensures !firstStillConnected
    ensures n == Some(Notification(second, ChangedStyles([style], ParentUpdate(parent, rules), [])))
    ensures connectedAfterStop == {}
  {
    var watcher := new StyleWatcher();
    watcher.WatchForStyleChanges(first);
    var firstId := watcher.styleChangeObserver.value.id;
    watcher.WatchForStyleChanges(second);
    firstStillConnected := firstId in Connected(watcher.calls);
    var secondId := watcher.styleChangeObserver.value.id;
    var batch := [MutationRecord([style], [], Some(parent))];
    InsertedStyleIsCreated(style, parent, rules);
    n := watcher.Deliver(secondId, batch, rules);
    watcher.StopWatchingForStyleChanges();
    watcher.StopWatchingForStyleChanges();
    connectedAfterStop := Connected(watcher.calls);
  }
}
