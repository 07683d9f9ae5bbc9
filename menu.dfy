/** helpers/menu.ts and constants/menu.ts of the admin UI: the menu forest,
    its pre-order key search and the chain of a menu item's ancestors. */
module Menu {
  import opened Common

  /** `MenuItemTypes` (`label` is `caption`, a keyword here); `badge` and
      `target` are not read by the helpers. */
  datatype MenuItem = MenuItem(
    key: string, caption: string, isTitle: Option<bool>, icon: Option<string>,
    url: Option<string>, parentKey: Option<string>, children: Items)

  /** `MenuItemTypes[] | undefined`, the type of `children` and of the
      items `findMenuItem` searches. */
  datatype Items = Undefined | Items(list: seq<MenuItem>)

  /** A key is truthy in JavaScript when it is present and not ''. */
  predicate Truthy(key: Option<string>)
  {
    key.Some? && key.value != ""
  }

  // ---------------------------------------------------------------------
  // The reference definitions: the forest in pre-order and the first node
  // of a sequence holding a key.

  /** Every node of the forest, each before its children and its children
      before its next sibling. */
  function Preorder(items: seq<MenuItem>): seq<MenuItem>
    decreases items
  {
    if |items| == 0 then [] else [items[0]] + PreorderBelow(items[0]) + Preorder(items[1..])
  }

  /** The descendants of one node in pre-order. */
  function PreorderBelow(item: MenuItem): seq<MenuItem>
    decreases item
  {
    match item.children
    case Undefined => []
    case Items(cs) => Preorder(cs)
  }

  /** The first node of `nodes` whose key is `key`. */
  function FirstWithKey(nodes: seq<MenuItem>, key: string): (r: Option<MenuItem>)
    ensures r.Some? ==> r.value.key == key && r.value in nodes
    ensures r.None? <==> forall n :: n in nodes ==> n.key != key
  {
    if |nodes| == 0 then None
    else if nodes[0].key == key then Some(nodes[0])
    else
      assert forall n :: n in nodes ==> n == nodes[0] || n in nodes[1..];
      FirstWithKey(nodes[1..], key)
  }

  /** The node found is the first with the key: no earlier node has it. */
  lemma {:induction false} FirstWithKeyIsFirst(nodes: seq<MenuItem>, key: string)
    requires FirstWithKey(nodes, key).Some?
    ensures exists i :: 0 <= i < |nodes| && nodes[i] == FirstWithKey(nodes, key).value &&
                        forall j :: 0 <= j < i ==> nodes[j].key != key
  {
    if nodes[0].key != key {
      FirstWithKeyIsFirst(nodes[1..], key);
      var i :| 0 <= i < |nodes[1..]| && nodes[1..][i] == FirstWithKey(nodes, key).value &&
               forall j :: 0 <= j < i ==> nodes[1..][j].key != key;
      assert nodes[i + 1] == FirstWithKey(nodes, key).value;
      assert forall j :: 0 <= j < i + 1 ==> nodes[j].key != key by {
        forall j | 0 <= j < i + 1
          ensures nodes[j].key != key
        {
          if j > 0 {
            assert nodes[j] == nodes[1..][j - 1];
          }
        }
      }
    } else {
      assert nodes[0] == FirstWithKey(nodes, key).value;
    }
  }

  lemma {:induction false} FirstWithKeyAppend(a: seq<MenuItem>, b: seq<MenuItem>, key: string)
    ensures FirstWithKey(a + b, key) == if FirstWithKey(a, key).Some? then FirstWithKey(a, key) else FirstWithKey(b, key)
  {
    if |a| == 0 {
      assert a + b == b;
    } else {
      assert (a + b)[0] == a[0];
      assert (a + b)[1..] == a[1..] + b;
      FirstWithKeyAppend(a[1..], b, key);
    }
  }

  // ---------------------------------------------------------------------
  // findMenuItem

  /** The forest search of `findMenuItem`, written as recursion over the
      siblings: check a node, then its children, then its next sibling. */
  function Find(items: seq<MenuItem>, key: string): Option<MenuItem>
    decreases items
  {
    if |items| == 0 then None
    else if items[0].key == key then Some(items[0])
    else
      var inChildren := FindBelow(items[0], key);
      if inChildren.Some? then inChildren else Find(items[1..], key)
  }

  /** The search among one node's descendants. */
  function FindBelow(item: MenuItem, key: string): Option<MenuItem>
    decreases item
  {
    match item.children
    case Undefined => None
    case Items(cs) => Find(cs, key)
  }

  /** `findMenuItem(menuItems, menuItemKey)` as a value: null without items
      or with a falsy key. */
  function FindMenuItemOf(items: Items, key: Option<string>): Option<MenuItem>
  {
    if items.Undefined? || !Truthy(key) then None else Find(items.list, key.value)
  }

  /** The search is the first node holding the key in pre-order. */
  lemma {:induction false} FindIsFirstInPreorder(items: seq<MenuItem>, key: string)
    ensures Find(items, key) == FirstWithKey(Preorder(items), key)
    decreases items
  {
    if |items| > 0 {
      var x := items[0];
      var below := PreorderBelow(x);
      var after := Preorder(items[1..]);
      if x.key != key {
        assert [x][1..] == [];
        FirstWithKeyAppend([x], below, key);
        FirstWithKeyAppend([x] + below, after, key);
        FindBelowIsFirstInPreorder(x, key);
        FindIsFirstInPreorder(items[1..], key);
      }
    }
  }

  lemma {:induction false} FindBelowIsFirstInPreorder(item: MenuItem, key: string)
    ensures FindBelow(item, key) == FirstWithKey(PreorderBelow(item), key)
    decreases item
  {
    match item.children {
      case Undefined =>
      case Items(cs) => FindIsFirstInPreorder(cs, key);
    }
  }

  /** What `findMenuItem` promises: null without items or with a falsy key;
      otherwise a node of the forest carrying the key, the first one in
      pre-order, and null exactly when no node carries it. */
  lemma FindMenuItemMeaning(items: Items, key: Option<string>)
    ensures items.Undefined? || !Truthy(key) ==> FindMenuItemOf(items, key).None?
    ensures items.Items? && Truthy(key) ==>
              var r := FindMenuItemOf(items, key);
              && r == FirstWithKey(Preorder(items.list), key.value)
              && (r.Some? ==> r.value.key == key.value && r.value in Preorder(items.list))
              && (r.None? <==> forall n :: n in Preorder(items.list) ==> n.key != key.value)
  {
    if items.Items? && Truthy(key) {
      FindIsFirstInPreorder(items.list, key.value);
    }
  }

  /** `findMenuItem`: an index loop over the siblings that returns a
      matching node, else searches its children and returns what is found
      there. */
  method FindMenuItem(items: Items, key: Option<string>) returns (r: Option<MenuItem>)
    ensures r == FindMenuItemOf(items, key)
    decreases items
  {
    if items.Items? && Truthy(key) {
      var menuItems := items.list;
      var i := 0;
      while i < |menuItems|
        invariant 0 <= i <= |menuItems|
        invariant Find(menuItems, key.value) == Find(menuItems[i..], key.value)
      {
        assert menuItems[i..][0] == menuItems[i];
        assert menuItems[i..][1..] == menuItems[i + 1..];
        if menuItems[i].key == key.value {
          return Some(menuItems[i]);
        }
        assert menuItems[i] in menuItems;
        var found := FindMenuItem(menuItems[i].children, key);
        if found.Some? {
          return found;
        }
        i := i + 1;
      }
      return None;
    }
    return None;
  }

  // ---------------------------------------------------------------------
  // findAllParent

  /** The node the item's `parentKey` names, as `findMenuItem` finds it. */
  function ParentOf(items: seq<MenuItem>, item: MenuItem): Option<MenuItem>
  {
    FindMenuItemOf(Items(items), item.parentKey)
  }

  /** The k-th ancestor: the item itself for 0, then parent after parent. */
  function Ancestor(items: seq<MenuItem>, item: MenuItem, k: nat): Option<MenuItem>
    decreases k
  {
    if k == 0 then Some(item)
    else match ParentOf(items, item)
      case None => None
      case Some(p) => Ancestor(items, p, k - 1)
  }

  /** The parent chain from `item` stops within `depth` further steps; the
      source loops for ever on a cyclic chain, so this is what it demands. */
  predicate ChainEnds(items: seq<MenuItem>, item: MenuItem, depth: nat)
    decreases depth
  {
    var p := ParentOf(items, item);
    p.None? || !Truthy(p.value.parentKey) || (depth > 0 && ChainEnds(items, p.value, depth - 1))
  }

  /** `findAllParent(menuItems, menuItem)`; `depth` bounds the chain and is
      not part of the computation. */
  function FindAllParent(items: seq<MenuItem>, item: MenuItem, ghost depth: nat): (r: seq<string>)
    requires ChainEnds(items, item, depth)
    ensures r == [] <==> ParentOf(items, item).None?
    ensures r != [] ==> r[0] == ParentOf(items, item).value.key
    ensures |r| <= depth + 1
    decreases depth
  {
    var parent := ParentOf(items, item);
    if parent.Some? then
      var parents := [parent.value.key];
      if Truthy(parent.value.parentKey) then parents + FindAllParent(items, parent.value, depth - 1)
      else parents
    else []
  }

  /** The result lists the ancestors' keys nearest first: element k - 1 is
      the key of the k-th ancestor, and the ancestor after the last one is
      missing. */
  lemma {:induction false} FindAllParentIsAncestors(items: seq<MenuItem>, item: MenuItem, depth: nat)
    requires ChainEnds(items, item, depth)
    ensures var r := FindAllParent(items, item, depth);
      && (forall k :: 1 <= k <= |r| ==> Ancestor(items, item, k).Some? && Ancestor(items, item, k).value.key == r[k - 1])
      && Ancestor(items, item, |r| + 1).None?
    decreases depth
  {
    var r := FindAllParent(items, item, depth);
    var parent := ParentOf(items, item);
    if parent.Some? {
      var p := parent.value;
      assert Ancestor(items, item, 1) == Some(p);
      if Truthy(p.parentKey) {
        FindAllParentIsAncestors(items, p, depth - 1);
        var rest := FindAllParent(items, p, depth - 1);
        assert r == [p.key] + rest;
        forall k | 1 <= k <= |r|
          ensures Ancestor(items, item, k).Some? && Ancestor(items, item, k).value.key == r[k - 1]
        {
          if k > 1 {
            assert Ancestor(items, item, k) == Ancestor(items, p, k - 1);
            assert r[k - 1] == rest[k - 2];
          }
        }
        assert Ancestor(items, item, |r| + 1) == Ancestor(items, p, |rest| + 1);
      } else {
        assert ParentOf(items, p).None?;
        assert Ancestor(items, item, 2) == Ancestor(items, p, 1);
      }
    }
  }

  /** The bound is only a bound: any two that let the chain end give the
      same result. */
  lemma {:induction false} FindAllParentIgnoresDepth(items: seq<MenuItem>, item: MenuItem, d1: nat, d2: nat)
    requires ChainEnds(items, item, d1) && ChainEnds(items, item, d2)
    ensures FindAllParent(items, item, d1) == FindAllParent(items, item, d2)
    decreases d1
  {
    var parent := ParentOf(items, item);
    if parent.Some? && Truthy(parent.value.parentKey) {
      FindAllParentIgnoresDepth(items, parent.value, d1 - 1, d2 - 1);
    }
  }

  // ---------------------------------------------------------------------
  // getMenuItems

  /** `MENU_ITEMS`: four top-level entries without children or parents. */
  const MenuItems: seq<MenuItem> := [
    MenuItem("dashboards", "Dashboard", Some(false), Some("home"), Some("/dashboard"), None, Undefined),
    MenuItem("apps", "Apps", Some(true), None, None, None, Undefined),
    MenuItem("apps-vocab", "Vocabulary", Some(false), Some("book"), Some("/vocabulary"), None, Undefined),
    MenuItem("apps-topic", "Topic", Some(false), Some("message-square"), Some("/topics"), None, Undefined)
  ]

  /** `getMenuItems`: the configured menu, four top-level entries with
      distinct keys, of which only the title has no link. */
  function GetMenuItems(): (r: seq<MenuItem>)
    ensures |r| == 4
    ensures forall i, j :: 0 <= i < j < |r| ==> r[i].key != r[j].key
    ensures forall i :: 0 <= i < |r| ==> r[i].parentKey.None? && r[i].children.Undefined?
    ensures forall i :: 0 <= i < |r| ==> (r[i].isTitle == Some(true) <==> r[i].url.None?)
  {
    MenuItems
  }

  /** The menu is flat: every entry is found by its key, and none has an
      ancestor. */
  lemma MenuIsFlat()
    ensures forall i :: 0 <= i < |GetMenuItems()| ==>
      FindMenuItemOf(Items(GetMenuItems()), Some(GetMenuItems()[i].key)) == Some(GetMenuItems()[i])
    ensures forall i :: 0 <= i < |GetMenuItems()| ==>
      ChainEnds(GetMenuItems(), GetMenuItems()[i], 0) && FindAllParent(GetMenuItems(), GetMenuItems()[i], 0) == []
  {
    var m := GetMenuItems();
    assert m[1..][1..][1..][1..] == [];
  }
}
