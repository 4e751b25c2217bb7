/**
 * The collapsable vertical navigation item: its `isOpen` flag, the commands that change it,
 * and the two navigation-service events it reacts to.
 */
module Collapsable {
  import opened Wrappers
  import opened NavTree

  /** What the item pushes to the navigation service's subjects. */
  datatype NavEvent =
    | ItemCollapsed(item: NavItem)   // onItemCollapsed.next(item)
    | ItemCollapseToggled            // onItemCollapseToggled.next()

  /**
   * An `onItemCollapsed` notification collapses this item only when the clicked item has
   * children, is not found by `isChildrenOf` below this item, the current url is not below
   * this item, and the clicked item is not this item.
   */
  predicate CollapsesOn(item: NavItem, clicked: Option<NavItem>, routerUrl: string)
  {
    && clicked.Some?
    && clicked.value.children.Present?
    && !IsChildrenOf(item, clicked.value)
    && !IsUrlInChildren(item, routerUrl)
    && item.id != clicked.value.id
  }

  /** An item never collapses on its own click, nor when the current url lies below it. */
  lemma CollapsesOnlyOthers(item: NavItem, clicked: Option<NavItem>, routerUrl: string)
    requires CollapsesOn(item, clicked, routerUrl)
    ensures clicked.value.id != item.id
    ensures forall d :: d in Descendants(item) ==> !IsSubstring(d.url, routerUrl)
  {
    IsUrlInChildrenSpec(item, routerUrl);
  }

  class CollapsableItem {
    const item: NavItem
    var isOpen: bool
    /** Everything this item has pushed to the navigation service, oldest first. */
    var emitted: seq<NavEvent>

    constructor (item: NavItem)
      ensures this.item == item && !isOpen && emitted == []
    {
      this.item := item;
      isOpen := false;
      emitted := [];
    }

    /** `toggleOpen`: flip `isOpen`, then announce this item and the toggle. */
    method ToggleOpen()
      modifies this
      ensures isOpen == !old(isOpen)
      ensures emitted == old(emitted) + [ItemCollapsed(item), ItemCollapseToggled]
    {
      isOpen := !isOpen;
      emitted := emitted + [ItemCollapsed(item)];
      emitted := emitted + [ItemCollapseToggled];
    }

    /** `expand`: open the item; nothing happens when it is already open. */
    method Expand()
      modifies this
      ensures isOpen
      ensures emitted == old(emitted) + (if old(isOpen) then [] else [ItemCollapseToggled])
    {
      if isOpen {
        return;
      }
      isOpen := true;
      emitted := emitted + [ItemCollapseToggled];
    }

    /** `collapse`: close the item; nothing happens when it is already closed. */
    method Collapse()
      modifies this
      ensures !isOpen
      ensures emitted == old(emitted) + (if old(isOpen) then [ItemCollapseToggled] else [])
    {
      if !isOpen {
        return;
      }
      isOpen := false;
      emitted := emitted + [ItemCollapseToggled];
    }

    /** The `NavigationEnd` handler: open exactly when the new url lies below this item. */
    method OnNavigationEnd(urlAfterRedirects: string)
      modifies this
      ensures isOpen == IsUrlInChildren(item, urlAfterRedirects)
      ensures emitted == old(emitted) + (if isOpen == old(isOpen) then [] else [ItemCollapseToggled])
    {
      if IsUrlInChildren(item, urlAfterRedirects) {
        Expand();
      } else {
        Collapse();
      }
    }

    /** The final check of `ngOnInit`, against the router's current url. */
    method Init(routerUrl: string)
      modifies this
      ensures isOpen == IsUrlInChildren(item, routerUrl)
      ensures emitted == old(emitted) + (if isOpen == old(isOpen) then [] else [ItemCollapseToggled])
    {
      if IsUrlInChildren(item, routerUrl) {
        Expand();
      } else {
        Collapse();
      }
    }

    /** The `onItemCollapsed` handler; `clicked` is `None` for a null notification. */
    method OnItemCollapsed(clicked: Option<NavItem>, routerUrl: string)
      modifies this
      ensures CollapsesOn(item, clicked, routerUrl) ==>
                !isOpen && emitted == old(emitted) + (if old(isOpen) then [ItemCollapseToggled] else [])
      ensures !CollapsesOn(item, clicked, routerUrl) ==>
                isOpen == old(isOpen) && emitted == old(emitted)
    {
      if clicked.Some? && clicked.value.children.Present? {
        if IsChildrenOf(item, clicked.value) {
          return;
        }
        if IsUrlInChildren(item, routerUrl) {
          return;
        }
        if item.id != clicked.value.id {
          Collapse();
        }
      }
    }
  }
}
