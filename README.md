# flow-mapper core, modelled in Dafny

This project models four pieces of the flow-mapper application and proves properties about them.

- **The Fuse sidebar** (`FuseSidebarComponent`, module `Sidebar`). It is a small state machine over:
  - the fields `opened`, `_folded`, `unfolded`, `isLockedOpen`, `animationsEnabled`, `wasActive`, `wasFolded` and the backdrop;
  - the inline styles and classes it writes through the renderer;
  - the values its `openedChanged` and `foldedChanged` emitters have sent.

  The class `Sidebar.FuseSidebar` keeps these as fields. Each method frames exactly the fields it may write (`modifies this`field`) and states their new values. The no-op guards show up as `unchanged(this)`. Every public method keeps the invariant "locked open implies opened" (`Valid`).
- **The collapsable navigation item** (`FuseNavVerticalCollapsableComponent`, modules `NavTree` and `Collapsable`). `NavTree` holds the two read-only tree searches as pure functions over a `NavItem` datatype:
  - `isChildrenOf`, with its first-branch-only descent;
  - `isUrlInChildren`, proved equivalent to "some descendant's url is a substring of the url".

  `Collapsable.CollapsableItem` holds `isOpen` and the list of events the item has pushed to the navigation service. Its methods are `expand`, `collapse`, `toggleOpen` and the two `ngOnInit` handlers.
- **The flow service** (`FlowService`, module `Flows`). `saveNewFlow`:
  - creates the technologies in request order;
  - builds one position-indexed `FlowTechnoOrder` row per technology;
  - resolves both applications, or fails with BadRequest before saving;
  - appends the flow to the repository.

  `transformFlowInFlowDTO` and `getAllWithDto` are order-preserving projections.
- **The application service** (`FlowAppService`, module `FlowApps`). It holds:
  - a repository map with fresh-id allocation;
  - a search index that only receives records after a successful repository write;
  - `getAll` and `getOneById`;
  - `find`, an order-preserving mapping from search hits to applications.

`Wrappers` holds the `Option` and `Result` types.

Conventions used throughout:

- JavaScript's `undefined` is modelled by an explicit value:
  - `None` for an optional application;
  - `Absent` for a missing `children` property;
  - the empty text for an unset `lockedOpen` input;
  - the text "undefined" for an item without a url, which is what `includes(undefined)` searches for.
- Object identity of navigation items is an `id` field.
- Callers supply the answers of collaborators that are not modelled:
  - `sibling`: whether the DOM sibling exists;
  - `isActive`: the media query's answer;
  - `stored` / `indexed`: whether the repository and the index accept a write;
  - the search hits, and the technology-creation function.

## Model

| member | source | states |
|---|---|---|
| `Sidebar.DecimalRoundTrip` | src/client/@fuse/components/sidebar/sidebar.component.ts:156 | the decimal text written for the folded width reads back as that width |
| `Sidebar.PxInjective` | src/client/@fuse/components/sidebar/sidebar.component.ts:156 | distinct folded widths give distinct `"<n>px"` style values |
| `Sidebar.FoldedWidthStyles` | src/client/@fuse/components/sidebar/sidebar.component.ts:178-192 | pinning sets width, min-width and max-width to the folded width; releasing removes all three; every other style is untouched |
| `Sidebar.ReleaseUndoesPin` | src/client/@fuse/components/sidebar/sidebar.component.ts:173-211 | releasing the width after pinning leaves what releasing alone leaves, and pinning overrides any earlier release |
| `Sidebar.ShowUndoesHide` | src/client/@fuse/components/sidebar/sidebar.component.ts:525-564 | showing undoes hiding and hiding undoes showing; hiding sets box-shadow "none" and visibility "hidden"; neither touches the width styles |
| `Sidebar.FuseSidebar.constructor` | src/client/@fuse/components/sidebar/sidebar.component.ts:118-130 | a fresh sidebar is closed, unfolded, animations off, width 64, left, hover trigger on, visible overlay, nothing rendered or emitted |
| `Sidebar.FuseSidebar.SetFolded` | src/client/@fuse/components/sidebar/sidebar.component.ts:143-215 | the value is always stored; the widths, sibling padding, `folded` class and one foldedChanged emission change only when opened and a sibling exists |
| `Sidebar.FuseSidebar.EnableAnimations` | src/client/@fuse/components/sidebar/sidebar.component.ts:571-582 | animations end enabled and nothing else changes, so a second call changes nothing |
| `Sidebar.FuseSidebar.ShowSidebar` | src/client/@fuse/components/sidebar/sidebar.component.ts:525-534 | the box-shadow and visibility overrides are removed, nothing else changes |
| `Sidebar.FuseSidebar.HideSidebar` | src/client/@fuse/components/sidebar/sidebar.component.ts:542-564 | box-shadow "none" and visibility "hidden" are set, nothing else changes |
| `Sidebar.FuseSidebar.ShowBackdrop` | src/client/@fuse/components/sidebar/sidebar.component.ts:452-485 | an overlay is present, marked invisible exactly when `invisibleOverlay` is set |
| `Sidebar.FuseSidebar.HideBackdrop` | src/client/@fuse/components/sidebar/sidebar.component.ts:492-517 | no overlay remains, whether or not one existed |
| `Sidebar.FuseSidebar.SetupVisibility` | src/client/@fuse/components/sidebar/sidebar.component.ts:278-288 | the sidebar starts hidden: box-shadow "none", visibility "hidden" |
| `Sidebar.FuseSidebar.SetupPosition` | src/client/@fuse/components/sidebar/sidebar.component.ts:295-303 | exactly one class naming the side is added |
| `Sidebar.FuseSidebar.SetupLockedOpen` | src/client/@fuse/components/sidebar/sidebar.component.ts:310-324 | without a query nothing changes; otherwise wasActive is false, wasFolded records folded, and the sidebar is shown |
| `Sidebar.FuseSidebar.SetupFolded` | src/client/@fuse/components/sidebar/sidebar.component.ts:395-445 | only a folded, opened sidebar with a sibling gets the folded widths, padding and class, without an emission |
| `Sidebar.FuseSidebar.OnInit` | src/client/@fuse/components/sidebar/sidebar.component.ts:228-250 | after init the sidebar is hidden, then shown again exactly when a lockedOpen query is set (wasActive false, wasFolded = folded; both untouched without a query); the class for its side is added; a folded, opened sidebar with a sibling gets the pinned widths, sibling padding and `folded` class; folded, animations and emitters are untouched |
| `Sidebar.FuseSidebar.OnMediaChange` | src/client/@fuse/components/sidebar/sidebar.component.ts:329-387 | a repeated answer changes nothing; otherwise activation or deactivation happens, and wasActive ends equal to the answer |
| `Sidebar.FuseSidebar.Activate` | src/client/@fuse/components/sidebar/sidebar.component.ts:339-366 | activation leaves the sidebar locked open, opened, shown, without backdrop, emits true, and folds again (with rendering when a sibling exists) if it was folded at setup |
| `Sidebar.FuseSidebar.Deactivate` | src/client/@fuse/components/sidebar/sidebar.component.ts:368-383 | deactivation leaves it unlocked, unfolded, closed and hidden, emits false, and keeps the backdrop |
| `Sidebar.FuseSidebar.Open` | src/client/@fuse/components/sidebar/sidebar.component.ts:591-613 | a no-op when opened or locked open; otherwise opened, animations on, shown, a backdrop created, exactly one true emitted; under the invariant it always ends opened |
| `Sidebar.FuseSidebar.Close` | src/client/@fuse/components/sidebar/sidebar.component.ts:618-640 | a no-op when closed or locked open; otherwise closed, animations on, backdrop gone, hidden, exactly one false emitted |
| `Sidebar.FuseSidebar.ToggleOpen` | src/client/@fuse/components/sidebar/sidebar.component.ts:645-651 | while locked open nothing changes; otherwise `opened` is negated and the new value is emitted; under the invariant a closed sidebar always ends opened |
| `Sidebar.FuseSidebar.OnMouseEnter` | src/client/@fuse/components/sidebar/sidebar.component.ts:656-664 | nothing changes unless the hover trigger is on and the sidebar folded; then it is unfolded temporarily |
| `Sidebar.FuseSidebar.OnMouseLeave` | src/client/@fuse/components/sidebar/sidebar.component.ts:669-677 | nothing changes unless the hover trigger is on and the sidebar folded; then it is folded back |
| `Sidebar.FuseSidebar.Fold` | src/client/@fuse/components/sidebar/sidebar.component.ts:682-696 | a folded sidebar is unchanged; otherwise animations on and the setter's effect with true; always ends folded |
| `Sidebar.FuseSidebar.Unfold` | src/client/@fuse/components/sidebar/sidebar.component.ts:701-715 | an unfolded sidebar is unchanged; otherwise animations on and the setter's effect with false; always ends unfolded |
| `Sidebar.FuseSidebar.ToggleFold` | src/client/@fuse/components/sidebar/sidebar.component.ts:720-726 | `folded` is negated and the setter's effect for the new value happens |
| `Sidebar.FuseSidebar.FoldTemporarily` | src/client/@fuse/components/sidebar/sidebar.component.ts:731-760 | acts only when folded, and then changes only animations (on), `unfolded` (false) and the pinned widths |
| `Sidebar.FuseSidebar.UnfoldTemporarily` | src/client/@fuse/components/sidebar/sidebar.component.ts:765-784 | acts only when folded, and then changes only animations (on), `unfolded` (true) and the released widths |
| `Sidebar.FuseSidebar.OnDestroy` | src/client/@fuse/components/sidebar/sidebar.component.ts:255-267 | the sidebar ends unfolded; an unfolded one is unchanged, a folded one gets the setter's effect with false |
| `NavTree.IncludesIsSubstring` | src/client/@fuse/components/navigation/vertical/collapsable/collapsable.component.ts:221 | `url.includes(u)` holds exactly when `u` occurs in `url` at some offset |
| `NavTree.UrlMatchesIsSubstring` | src/client/@fuse/components/navigation/vertical/collapsable/collapsable.component.ts:221 | the url test (equal to the url, or included in it) is exactly the substring test; equality is subsumed |
| `NavTree.IsUrlInChildren` | src/client/@fuse/components/navigation/vertical/collapsable/collapsable.component.ts:209-212 | a parent without children yields false |
| `NavTree.IsUrlInChildrenSpec` | src/client/@fuse/components/navigation/vertical/collapsable/collapsable.component.ts:209-227 | `isUrlInChildren` is true exactly when some descendant at depth 1 or more has a url that is a substring of the url |
| `NavTree.IsChildrenOf` | src/client/@fuse/components/navigation/vertical/collapsable/collapsable.component.ts:185-192 | false for a parent without children, true when the item is a direct child |
| `NavTree.DescendFirst` | src/client/@fuse/components/navigation/vertical/collapsable/collapsable.component.ts:194-198 | the loop's answer is the recursive answer for the first child with children, and false when no child has any |
| `NavTree.IsChildrenOfSound` | src/client/@fuse/components/navigation/vertical/collapsable/collapsable.component.ts:185-199 | an item `isChildrenOf` finds is really a descendant of the parent |
| `NavTree.IsChildrenOfMissesLaterBranches` | src/client/@fuse/components/navigation/vertical/collapsable/collapsable.component.ts:194-198 | there is a descendant that `isChildrenOf` does not find, below a later sibling |
| `Collapsable.CollapsesOnlyOthers` | src/client/@fuse/components/navigation/vertical/collapsable/collapsable.component.ts:75-93 | an item never collapses on its own click, nor while the current url lies below it |
| `Collapsable.CollapsableItem.constructor` | src/client/@fuse/components/navigation/vertical/collapsable/collapsable.component.ts:30-31 | a new item is closed and has emitted nothing |
| `Collapsable.CollapsableItem.ToggleOpen` | src/client/@fuse/components/navigation/vertical/collapsable/collapsable.component.ts:135-143 | `isOpen` is negated; the item emits itself as collapsed, then a toggle |
| `Collapsable.CollapsableItem.Expand` | src/client/@fuse/components/navigation/vertical/collapsable/collapsable.component.ts:148-159 | the item ends open; one toggle is emitted only if it was closed |
| `Collapsable.CollapsableItem.Collapse` | src/client/@fuse/components/navigation/vertical/collapsable/collapsable.component.ts:164-175 | the item ends closed; one toggle is emitted only if it was open |
| `Collapsable.CollapsableItem.OnNavigationEnd` | src/client/@fuse/components/navigation/vertical/collapsable/collapsable.component.ts:62-70 | after a navigation end, `isOpen` equals `isUrlInChildren(item, url)`, and one toggle is emitted exactly when it changed |
| `Collapsable.CollapsableItem.Init` | src/client/@fuse/components/navigation/vertical/collapsable/collapsable.component.ts:96-102 | at init, `isOpen` equals `isUrlInChildren(item, router url)`, and one toggle is emitted exactly when it changed |
| `Collapsable.CollapsableItem.OnItemCollapsed` | src/client/@fuse/components/navigation/vertical/collapsable/collapsable.component.ts:75-93 | the item collapses exactly when the clicked item has children, is not found below it, the url is not below it, and it is another item; otherwise nothing changes |
| `FlowApps.Find` | src/modules/flow-app/flow-app.service.ts:31-40 | one application per hit, in hit order, with id = objectID and name and description copied; no hits, no applications |
| `FlowApps.FoundAppsAreStored` | src/modules/flow-app/flow-app.service.ts:31-54 | hits drawn from the index map to applications the repository holds, with the stored name and description |
| `FlowApps.FlowAppService.GetAll` | src/modules/flow-app/flow-app.service.ts:23-25 | the result holds every stored application and nothing else, without changing the stores |
| `FlowApps.FlowAppService.GetOneById` | src/modules/flow-app/flow-app.service.ts:27-29 | present exactly for a stored id, and then the stored application with that id |
| `FlowApps.FlowAppService.SaveNewApp` | src/modules/flow-app/flow-app.service.ts:42-54 | the repository stores the input's name and description under a fresh id; only after that does the index get one record keyed by that id; the result carries the id; failures are reported and keep the invariant |
| `Flows.Orders` | src/server/modules/flow/flow.service.ts:46-53 | one row per technology; row i references the flow, has position i and holds the i-th technology |
| `Flows.TechnosOf` | src/server/modules/flow/flow.service.ts:75-77 | the i-th element is the technology of the i-th row |
| `Flows.OrdersRoundTrip` | src/server/modules/flow/flow.service.ts:46-77 | reading the technologies back from the built rows gives the created technologies in input order |
| `Flows.TransformFlowInFlowDto` | src/server/modules/flow/flow.service.ts:68-80 | name, description, source and destination applications copied; technologies of the rows in stored order, same length |
| `Flows.ToDtos` | src/server/modules/flow/flow.service.ts:32-36 | one transfer object per flow, in repository order |
| `Flows.ToDtosSnoc` | src/server/modules/flow/flow.service.ts:32-36 | after a flow is appended, the projection grows by that flow's transfer object |
| `Flows.FlowTechnoService.SaveNewTechno` | src/server/modules/flow/flow.service.ts:43 | returns the created technology and records the request |
| `Flows.FlowService.SaveTechnos` | src/server/modules/flow/flow.service.ts:41-45 | one technology per request, in request order, each created from its request; every request reaches the technology service |
| `Flows.FlowService.GetAllWithDto` | src/server/modules/flow/flow.service.ts:32-36 | one transfer object per stored flow, in repository order, with its name and technologies |
| `Flows.FlowService.SaveNewFlow` | src/server/modules/flow/flow.service.ts:38-66 | technologies created first; BadRequest exactly when an application id is unknown, with nothing saved; otherwise a fresh flow with the input's fields, both applications and the position-indexed rows is appended |
| `Flows.FlowService.SaveNewFlowThenGetAll` | src/server/modules/flow/flow.service.ts:32-66 | after a successful save, listing the flows gives the earlier transfer objects followed by the new flow's, whose technologies are the created ones in request order; after a failure the list is unchanged |

## Left out

- Angular and RxJS plumbing is not modelled:
  - subscriptions and their `takeUntil` teardown;
  - the config subscription;
  - registering and unregistering the sidebar with the sidebar service;
  - `markForCheck`;
  - the collapsable item's `ngOnDestroy`, which only unsubscribes;
  - the navigation-item add/update/remove subscription, which only marks for check.
- `hideSidebar`'s timer (and its `delay` argument) is left out: the two style writes happen at once.
- `hideBackdrop`'s leave animation is left out: the overlay is removed at once rather than in the animation's completion callback.
- `showBackdrop`'s DOM element, animation player and click listener (which calls `close`) are left out. Only the overlay's presence and its invisible flag are kept.
- The DOM lookup of `nextElementSibling` / `previousElementSibling` becomes the boolean parameter `sibling`.
- The media query's evaluation becomes the boolean parameter `isActive`.
- The router's current url becomes a parameter.
- `toggleOpen`'s `preventDefault` is left out.
- `foldedWidth` is a JavaScript number. It is modelled as a natural number written in decimal; fractional or negative widths are not modelled.
- The sidebar's `name` and `key` inputs and the navigation item's `classes` binding are not modelled.
- `Promise.all` in `saveNewFlow` runs the technology creations concurrently. The model creates them one by one in request order, which is the order of the results.
- The technology service is a stand-in that creates technologies with a fixed function. Its own persistence is not part of this model.
- The flow repository's `save` is modelled as an append that always succeeds. The id it assigns and the relations `findAllWithRelations` loads are not modelled.
- `FlowService.getAll` only returns the repository's list. That list is the `flows` field.
- The flow service's search index is initialised but never used, so it is left out.
- The search engine's ranking of a query is not modelled: `find` takes the hits it returned.
- `objectID` is modelled as the integer id, not as the string the search engine stores.
- The order in which the repository's `find` returns all applications is not modelled: `getAll` returns a set.
- TypeORM and Algolia internals are not modelled. Their failures become the `stored` / `indexed` parameters of `saveNewApp`.
- The flow-app controller is HTTP routing and is not modelled. The `update` it calls is not defined in the application service, so it is not modelled either.
- `Flows.FlowService.SaveNewFlow` does not restate the projection of the whole repository in its own contract. `Flows.FlowService.SaveNewFlowThenGetAll` states it: it saves a flow, then lists the flows.
