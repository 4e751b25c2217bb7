/**
 * The two read-only searches of the collapsable vertical navigation item
 * (`isChildrenOf` and `isUrlInChildren`), over a navigation tree.
 */
module NavTree {
  /**
   * A navigation item. `id` stands for the object's identity (the source compares items
   * with `===` and `indexOf`). `children` is `Absent` when the item has no `children`
   * property, and `Present(cs)` otherwise, even when `cs` is empty: an empty array is truthy.
   * An item without a url is represented by the text "undefined", which is what
   * `String.prototype.includes` searches for when given `undefined`.
   */
  datatype NavItem = NavItem(id: nat, url: string, children: ChildList)

  /** The `children` property of an item: unset, or an array (possibly empty). */
  datatype ChildList = Absent | Present(items: seq<NavItem>)

  // ---------------------------------------------------------------------------
  // Substrings
  // ---------------------------------------------------------------------------

  /** `hay.includes(needle)`: does `needle` occur in `hay` at some offset? */
  predicate Includes(hay: string, needle: string)
    decreases |hay|
  {
    needle <= hay || (|hay| > 0 && Includes(hay[1..], needle))
  }

  /** `needle` occurs in `hay` starting at offset `i`. */
  ghost predicate OccursAt(needle: string, hay: string, i: nat)
  {
    i + |needle| <= |hay| && hay[i..i + |needle|] == needle
  }

  /** The reference meaning of "needle is a substring of hay". */
  ghost predicate IsSubstring(needle: string, hay: string)
  {
    exists i: nat :: OccursAt(needle, hay, i)
  }

  lemma {:induction false} IncludesIsSubstring(hay: string, needle: string)
    ensures Includes(hay, needle) <==> IsSubstring(needle, hay)
    decreases |hay|
  {
    if needle <= hay {
      assert OccursAt(needle, hay, 0);
    }
    if |hay| > 0 {
      IncludesIsSubstring(hay[1..], needle);
      if Includes(hay[1..], needle) {
        var i: nat :| OccursAt(needle, hay[1..], i);
        assert hay[i + 1..i + 1 + |needle|] == hay[1..][i..i + |needle|];
        assert OccursAt(needle, hay, i + 1);
      }
      if IsSubstring(needle, hay) {
        var i: nat :| OccursAt(needle, hay, i);
        if i > 0 {
          assert hay[1..][i - 1..i - 1 + |needle|] == hay[i..i + |needle|];
          assert OccursAt(needle, hay[1..], i - 1);
        } else {
          assert needle <= hay;
        }
      }
    } else if IsSubstring(needle, hay) {
      var i: nat :| OccursAt(needle, hay, i);
      assert needle == [];
    }
  }

  /** The url test of `isUrlInChildren`: `child.url === url || url.includes(child.url)`. */
  predicate UrlMatches(itemUrl: string, url: string)
  {
    itemUrl == url || Includes(url, itemUrl)
  }

  /** The equality half of the url test is subsumed by the substring half. */
  lemma UrlMatchesIsSubstring(itemUrl: string, url: string)
    ensures UrlMatches(itemUrl, url) <==> IsSubstring(itemUrl, url)
  {
    IncludesIsSubstring(url, itemUrl);
    if itemUrl == url {
      assert itemUrl <= url;
    }
  }

  // ---------------------------------------------------------------------------
  // Descendants: the reference both searches are measured against
  // ---------------------------------------------------------------------------

  /** Every item strictly below `n`, in pre-order. */
  function Descendants(n: NavItem): seq<NavItem>
    decreases n, 1
  {
    match n.children
    case Absent => []
    case Present(cs) => DescendantsFrom(n, cs, 0)
  }

  /** The descendants contributed by the children `cs[i..]` of `n`. */
  function DescendantsFrom(n: NavItem, cs: seq<NavItem>, i: nat): seq<NavItem>
    requires n.children == Present(cs) && i <= |cs|
    decreases n, 0, |cs| - i
  {
    if i == |cs| then []
    else
      assert cs[i] in cs;
      [cs[i]] + Descendants(cs[i]) + DescendantsFrom(n, cs, i + 1)
  }

  // ---------------------------------------------------------------------------
  // isUrlInChildren
  // ---------------------------------------------------------------------------

  /** `isUrlInChildren(parent, url)`. */
  function IsUrlInChildren(parent: NavItem, url: string): (r: bool)
    ensures parent.children.Absent? ==> !r
    decreases parent, 1
  {
    match parent.children
    case Absent => false
    case Present(cs) => UrlInChildrenFrom(parent, cs, 0, url)
  }

  /** The `for` loop of `isUrlInChildren` from child `i` on: a child's own subtree is
      searched when it has children, then the child's own url is compared. */
  function UrlInChildrenFrom(parent: NavItem, cs: seq<NavItem>, i: nat, url: string): bool
    requires parent.children == Present(cs) && i <= |cs|
    decreases parent, 0, |cs| - i
  {
    if i == |cs| then false
    else if cs[i].children.Present? && (assert cs[i] in cs; IsUrlInChildren(cs[i], url)) then true
    else if UrlMatches(cs[i].url, url) then true
    else UrlInChildrenFrom(parent, cs, i + 1, url)
  }

  /** Some item of `ds` has a url that is a substring of `url`. */
  ghost predicate SomeUrlIn(ds: seq<NavItem>, url: string)
  {
    exists d :: d in ds && IsSubstring(d.url, url)
  }

  /** `isUrlInChildren(parent, url)` holds exactly when some descendant of `parent`
      (at depth one or more) has a url equal to, or contained in, `url`. */
  lemma {:induction false} IsUrlInChildrenSpec(parent: NavItem, url: string)
    ensures IsUrlInChildren(parent, url) <==> SomeUrlIn(Descendants(parent), url)
    decreases parent, 1
  {
    match parent.children
    case Absent =>
    case Present(cs) => UrlInChildrenFromSpec(parent, cs, 0, url);
  }

  lemma {:induction false} UrlInChildrenFromSpec(parent: NavItem, cs: seq<NavItem>, i: nat, url: string)
    requires parent.children == Present(cs) && i <= |cs|
    ensures UrlInChildrenFrom(parent, cs, i, url) <==> SomeUrlIn(DescendantsFrom(parent, cs, i), url)
    decreases parent, 0, |cs| - i
  {
    if i < |cs| {
      var c := cs[i];
      assert c in cs;
      var below, rest := Descendants(c), DescendantsFrom(parent, cs, i + 1);
      IsUrlInChildrenSpec(c, url);
      UrlInChildrenFromSpec(parent, cs, i + 1, url);
      UrlMatchesIsSubstring(c.url, url);
      assert DescendantsFrom(parent, cs, i) == [c] + below + rest;
      if SomeUrlIn([c] + below + rest, url) {
        var d :| d in [c] + below + rest && IsSubstring(d.url, url);
        if d == c {
        } else if d in below {
          assert SomeUrlIn(below, url);
        } else {
          assert SomeUrlIn(rest, url);
        }
      }
      if UrlInChildrenFrom(parent, cs, i, url) {
        if c.children.Present? && IsUrlInChildren(c, url) {
          var d :| d in below && IsSubstring(d.url, url);
          assert d in [c] + below + rest;
        } else if UrlMatches(c.url, url) {
          assert c in [c] + below + rest;
        } else {
          var d :| d in rest && IsSubstring(d.url, url);
          assert d in [c] + below + rest;
        }
      }
    }
  }

  // ---------------------------------------------------------------------------
  // isChildrenOf
  // ---------------------------------------------------------------------------

  /** `parent.children.indexOf(item) !== -1`, identity being the `id`. */
  predicate IsDirectChild(cs: seq<NavItem>, item: NavItem)
  {
    exists k :: 0 <= k < |cs| && cs[k].id == item.id
  }

  /**
   * `isChildrenOf(parent, item)`. When the item is not a direct child, the source descends
   * into the FIRST child that has a `children` property and returns that answer, ignoring
   * every later sibling; when no child has one the function falls off its end and yields
   * `undefined`, which is falsy and modelled as `false`.
   */
  function IsChildrenOf(parent: NavItem, item: NavItem): (r: bool)
    ensures parent.children.Absent? ==> !r
    ensures parent.children.Present? && IsDirectChild(parent.children.items, item) ==> r
    decreases parent, 1
  {
    match parent.children
    case Absent => false
    case Present(cs) => IsDirectChild(cs, item) || DescendFirst(parent, cs, 0, item)
  }

  /** The `for` loop of `isChildrenOf` from child `i` on. The result is the recursive answer
      for the first child at or after `i` that has children, and false if there is none. */
  function DescendFirst(parent: NavItem, cs: seq<NavItem>, i: nat, item: NavItem): (r: bool)
    requires parent.children == Present(cs) && i <= |cs|
    ensures r <==> exists j :: i <= j < |cs| && cs[j].children.Present?
                      && (forall k :: i <= k < j ==> cs[k].children.Absent?)
                      && IsChildrenOf(cs[j], item)
    decreases parent, 0, |cs| - i
  {
    if i == |cs| then false
    else if cs[i].children.Present? then assert cs[i] in cs; IsChildrenOf(cs[i], item)
    else DescendFirst(parent, cs, i + 1, item)
  }

  /** Whatever `isChildrenOf` finds is really below the parent. */
  lemma {:induction false} IsChildrenOfSound(parent: NavItem, item: NavItem)
    requires IsChildrenOf(parent, item)
    ensures exists d :: d in Descendants(parent) && d.id == item.id
    decreases parent, 1
  {
    var cs := parent.children.items;
    if IsDirectChild(cs, item) {
      var k :| 0 <= k < |cs| && cs[k].id == item.id;
      DescendantsFromContainsChild(parent, cs, 0, k);
    } else {
      var j :| 0 <= j < |cs| && cs[j].children.Present?
               && (forall k :: 0 <= k < j ==> cs[k].children.Absent?)
               && IsChildrenOf(cs[j], item);
      assert cs[j] in cs;
      IsChildrenOfSound(cs[j], item);
      var d :| d in Descendants(cs[j]) && d.id == item.id;
      DescendantsFromContainsSubtree(parent, cs, 0, j, d);
    }
  }

  lemma {:induction false} DescendantsFromContainsChild(n: NavItem, cs: seq<NavItem>, i: nat, k: nat)
    requires n.children == Present(cs) && i <= k < |cs|
    ensures cs[k] in DescendantsFrom(n, cs, i)
    decreases |cs| - i
  {
    if i < k {
      DescendantsFromContainsChild(n, cs, i + 1, k);
    }
  }

  lemma {:induction false} DescendantsFromContainsSubtree(n: NavItem, cs: seq<NavItem>, i: nat, k: nat, d: NavItem)
    requires n.children == Present(cs) && i <= k < |cs| && d in Descendants(cs[k])
    ensures d in DescendantsFrom(n, cs, i)
    decreases |cs| - i
  {
    if i < k {
      DescendantsFromContainsSubtree(n, cs, i + 1, k, d);
    }
  }

  /** The first-branch-only descent misses items that are below a later sibling. */
  lemma IsChildrenOfMissesLaterBranches()
    ensures exists parent: NavItem, item: NavItem ::
              item in Descendants(parent) && !IsChildrenOf(parent, item)
  {
    var x := NavItem(3, "/x", Absent);
    var a := NavItem(1, "/a", Present([]));
    var b := NavItem(2, "/b", Present([x]));
    var p := NavItem(0, "/", Present([a, b]));
    assert Descendants(b) == [x] by {
      assert Descendants(x) == [];
      assert DescendantsFrom(b, [x], 1) == [];
      assert DescendantsFrom(b, [x], 0) == [x] + Descendants(x) + DescendantsFrom(b, [x], 1);
    }
    assert DescendantsFrom(p, [a, b], 1) == [b, x] by {
      assert DescendantsFrom(p, [a, b], 2) == [];
    }
    assert x in Descendants(p);
    assert !IsDirectChild([a, b], x);
    assert !IsDirectChild([], x);
    assert !IsChildrenOf(a, x);
    assert !IsChildrenOf(p, x);
  }
}
