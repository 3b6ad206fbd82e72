# Style change watcher (Dark Reader, `src/inject/dynamic-theme/watch.ts`)

This project models, in Dafny, the layer of Dark Reader's dynamic theme that
watches a page for style elements being added, removed or changed, and
proves properties of that model.

- `dom.dfy` (module `Dom`) holds the document tree. A node is an element
  (an identity and ordered children) or a non-element node (text, comment).
  It also holds the pre-order walk that gives document order, and
  `querySelectorAll`: the descendants of a root, excluding the root, that
  are elements matching a selector.
- `scanner.dfy` (module `Scanner`) holds `getAllManageableStyles`. The
  specification function `ManageableStyles` describes it. The imperative
  method `GetAllManageableStyles` mirrors the `forEach` loop that pushes
  onto `results`, and its contract is proved against that function.
  `shouldManageStyle` and `STYLE_SELECTOR` come from the style manager,
  which is not part of this model. They are the two uninterpreted
  predicates of a `StyleRules` value.
- `watch.dfy` (module `Watch`) holds two things:
  - The mutation-observer callback. Its folds become the functions
    `Gathered` (for `created` and `removed`) and `UpdatedStyles`.
    `OnStyleMutations` returns `None` when all three lists are empty and
    `Some(ChangedStyles)` otherwise.
  - The module-level `styleChangeObserver` handle. This is the class
    `StyleWatcher`. Its methods `WatchForStyleChanges` and
    `StopWatchingForStyleChanges` update the handle and append to a log of
    the observe and disconnect calls made to the platform. A generation
    counter gives every observer a serial number, so the model can state
    that only the latest observer is connected.

Where the code differs from what one might expect of it, the model follows
the code:

- `updated` collects the target of every record in the batch
  (watch.ts:33-34), with no check on the kind of mutation. Inserting only
  text into an accepted `<style>` element therefore still notifies, and
  reports that element as updated (`Watch.NonElementBatch`).
- `updated` is not disjoint from `created` or `removed`. One batch can insert
  a style element and then change its `rel` attribute
  (`Watch.CreatedAndUpdatedMayOverlap`).
- The root of an expansion is tested only with `shouldManageStyle`.
  Descendants must also match the selector (watch.ts:16, 19).

## Model

| member | source | states |
|---|---|---|
| `Dom.Filter` | src/inject/dynamic-theme/watch.ts:19 | `.filter` returns only elements of its input that satisfy the predicate, and never lengthens the list |
| `Dom.FilterKeeps` | src/inject/dynamic-theme/watch.ts:19 | `.filter` drops no element that satisfies the predicate |
| `Dom.QuerySelectorAll` | src/inject/dynamic-theme/watch.ts:19 | the result holds only descendants of the root (never the root) that are elements matching the selector |
| `Scanner.ManageableStylesOf` | src/inject/dynamic-theme/watch.ts:15-20 | everything one node contributes is an element that `shouldManageStyle` accepts |
| `Scanner.ManageableStylesOfMembership` | src/inject/dynamic-theme/watch.ts:15-20 | a node is contributed iff the input is an element, the style manager accepts the candidate, and the candidate is the input itself or a selector-matching descendant element |
| `Scanner.ManageableStyles` | src/inject/dynamic-theme/watch.ts:12-23 | every node the expansion returns is an element that `shouldManageStyle` accepts |
| `Scanner.GetAllManageableStyles` | src/inject/dynamic-theme/watch.ts:12-23 | the loop's result equals the specification `ManageableStyles` of the input list |
| `Scanner.PushManageableStyles` | src/inject/dynamic-theme/watch.ts:14-21 | one callback step appends exactly that node's contribution to `results` and keeps what was there |
| `Scanner.ManageableStylesConcat` | src/inject/dynamic-theme/watch.ts:13-22 | expanding `a + b` gives the expansion of `a` followed by the expansion of `b`, so input order is kept |
| `Scanner.NonElementsExpandToNothing` | src/inject/dynamic-theme/watch.ts:14-15 | a list of only text and comment nodes expands to the empty list |
| `Scanner.ManageableStylesMembership` | src/inject/dynamic-theme/watch.ts:14-21 | a node is in the expansion of a list iff it is in the contribution of one of the list's nodes |
| `Scanner.ElementExpandsToManagedSubtree` | src/inject/dynamic-theme/watch.ts:16-19 | when the selector covers every managed element below it, an element expands to exactly the managed elements of its subtree, itself first, in document order |
| `Watch.Collect` | src/inject/dynamic-theme/watch.ts:31-38 | the `reduce((acc, m) => acc.concat(part(m)), [])` left fold, appending each record's part in record order; every node it returns comes from the part of some record |
| `Watch.CollectConcat` | src/inject/dynamic-theme/watch.ts:31-38 | a `reduce` fold that appends each record's part, applied to `a + b`, is the fold of `a` followed by the fold of `b` |
| `Watch.CollectIsConcatenation` | src/inject/dynamic-theme/watch.ts:31-38 | the left fold builds the same list as concatenating the records' parts from the front |
| `Watch.CollectMembership` | src/inject/dynamic-theme/watch.ts:31-38 | a node is in the fold iff it is in the part of some record |
| `Watch.CollectEmpty` | src/inject/dynamic-theme/watch.ts:31-38 | the fold is empty iff every record's part is empty |
| `Watch.CollectBound` | src/inject/dynamic-theme/watch.ts:33-38 | when each record adds at most one node, the fold has at most one entry per record |
| `Watch.Gathered` | src/inject/dynamic-theme/watch.ts:31-32 | `created` and `removed` contain only elements that `shouldManageStyle` accepts |
| `Watch.GatheredIsConcatenation` | src/inject/dynamic-theme/watch.ts:31-32 | the `reduce`/`concat` left fold equals the expansions of the records concatenated in record order |
| `Watch.GatheredConcat` | src/inject/dynamic-theme/watch.ts:31-32 | the `created`/`removed` fold of `a + b` is the fold of `a` followed by the fold of `b` |
| `Watch.GatheredMembership` | src/inject/dynamic-theme/watch.ts:31-32 | a node is in `created` (`removed`) iff it is in the expansion of some record's added (removed) nodes |
| `Watch.GatheredEmpty` | src/inject/dynamic-theme/watch.ts:31-32 | `created` (`removed`) is empty iff every record's added (removed) nodes expand to nothing |
| `Watch.UpdatedStyles` | src/inject/dynamic-theme/watch.ts:33-38 | `updated` has at most one entry per record, and each entry is accepted by `shouldManageStyle` |
| `Watch.UpdatedStylesConcat` | src/inject/dynamic-theme/watch.ts:33-38 | the `updated` fold of `a + b` is the fold of `a` followed by the fold of `b`, so record order is kept |
| `Watch.UpdatedStylesMembership` | src/inject/dynamic-theme/watch.ts:33-38 | a node is in `updated` iff it is the present target of some record and `shouldManageStyle` accepts it |
| `Watch.UpdatedStylesEmpty` | src/inject/dynamic-theme/watch.ts:33-38 | `updated` is empty iff no record has a present target that is accepted |
| `Watch.OnStyleMutations` | src/inject/dynamic-theme/watch.ts:30-47 | a notification is never empty, lists only accepted styles, and has at most one `updated` entry per record |
| `Watch.InsertedStyleIsCreated` | src/inject/dynamic-theme/watch.ts:31-46 | inserting one childless accepted style element under a parent yields exactly `{created: [style], updated: [parent], removed: []}` when the parent is accepted and `{created: [style], updated: [], removed: []}` when it is not |
| `Watch.NotifiesIffSomeRecordCounts` | src/inject/dynamic-theme/watch.ts:40-46 | the callback notifies iff some record contributes to `created`, `removed` or `updated` |
| `Watch.NonElementBatch` | src/inject/dynamic-theme/watch.ts:31-46 | a batch whose added and removed nodes are all text or comments notifies iff some record's target is an accepted style |
| `Watch.CreatedAndUpdatedMayOverlap` | src/inject/dynamic-theme/watch.ts:31-38 | a batch that inserts a style and then changes it reports that style in both `created` and `updated` |
| `Watch.Connected` | src/inject/dynamic-theme/watch.ts:27-48 | an observer counts as connected only if an observe call was made for it |
| `Watch.StyleWatcher.constructor` | src/inject/dynamic-theme/watch.ts:4 | the handle starts empty, with no observer created and no platform call made |
| `Watch.StyleWatcher.WatchForStyleChanges` | src/inject/dynamic-theme/watch.ts:25-49 | the old observer, if any, is disconnected before a fresh observer with the given callback and the `rel` options is connected; afterwards exactly that observer is connected |
| `Watch.StyleWatcher.StopWatchingForStyleChanges` | src/inject/dynamic-theme/watch.ts:51-56 | the handle is disconnected and cleared and no observer stays connected; when the handle is already empty nothing changes |
| `Watch.RestartScenario` | src/inject/dynamic-theme/watch.ts:25-56 | starting twice disconnects the first observer, an insertion then reaches only the second callback with its classification, and stopping twice leaves nothing connected |
| `Watch.StyleWatcher.Deliver` | src/inject/dynamic-theme/watch.ts:30-47 | a batch can only reach the latest observer; its callback fires exactly when the batch is not empty, with that batch's classification |

## Left out

- The real `MutationObserver` is left out: its construction, the `observe`
  registration on `document.documentElement` and the asynchronous batching
  of records. These are platform services. The model records the observe
  options as the constant `StyleObserveOptions` and logs each observe and
  disconnect call. `Deliver` stands for the platform handing a batch to a
  connected observer.
- Re-entrant calls to `watchForStyleChanges` or
  `stopWatchingForStyleChanges` from inside `update` are left out, because
  they depend on host scheduling. What `update` does with a notification is
  opaque to this file. A callback is modelled by its identity only.
- The implementations of `shouldManageStyle` and `STYLE_SELECTOR` are in
  `style-manager`, which is not part of this model. Both are uninterpreted
  predicates.
- DOM typing is abstracted into the `Node` datatype: `instanceof Element`,
  the `HTMLStyleElement`/`HTMLLinkElement` casts and `Array.from` over
  `ArrayLike`. A node is a value, not a reference: `==` and `in` on nodes
  compare the `id` together with the whole children list, so two nodes are
  the same only when their entire subtrees are equal. A node value stands
  for its subtree as it is when the callback runs, because
  `getAllManageableStyles` queries the live tree at that moment, not as it
  was when the mutation happened.
- The changed-attribute name of a mutation record is not modelled, because
  the callback never reads it. A record's `target` is an `Option`, because
  the code tests it for presence.
- An exception thrown by the classifier is not modelled: the predicates are
  total.
