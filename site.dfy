/** The main menu registry and the base template context of
    adit_radis_shared/common/site.py, and the older variant in
    common/site.py, whose registry only appends. The registry is the
    module-level list `main_menu_items`, here the field of a class. */
module SiteContext {
  import opened Wrappers
  import opened Views

  const ThemePreferenceKey := "theme"

  /** A menu entry of adit_radis_shared/common/site.py. */
  datatype MainMenuItem = MainMenuItem(urlName: string, menuLabel: string, order: int, staffOnly: bool)

  /** `MainMenuItem(url_name, label)`: `order` defaults to 1 and
      `staff_only` to false. */
  function DefaultMenuItem(urlName: string, menuLabel: string): (r: MainMenuItem)
    ensures r.urlName == urlName && r.menuLabel == menuLabel
    ensures r.order == 1 && !r.staffOnly
  {
    MainMenuItem(urlName, menuLabel, 1, false)
  }

  /** A menu entry of common/site.py: a name and a label only. */
  datatype PlainMenuItem = PlainMenuItem(urlName: string, menuLabel: string)

  /** Non-decreasing by `order`. */
  predicate SortedByOrder(items: seq<MainMenuItem>) {
    forall i, j :: 0 <= i < j < |items| ==> items[i].order <= items[j].order
  }

  /** `items + [item]` stably sorted by `order` when `items` already is:
      the new item goes after every item whose order is not larger. */
  function Insert(items: seq<MainMenuItem>, item: MainMenuItem): (r: seq<MainMenuItem>)
    ensures |r| == |items| + 1
  {
    if items == [] then [item]
    else if item.order < items[0].order then [item] + items
    else [items[0]] + Insert(items[1..], item)
  }

  /** Registration adds exactly the new item. */
  lemma {:induction false} InsertAddsItem(items: seq<MainMenuItem>, item: MainMenuItem)
    ensures multiset(Insert(items, item)) == multiset(items) + multiset{item}
    decreases |items|
  {
    if items != [] && item.order >= items[0].order {
      InsertAddsItem(items[1..], item);
      assert items == [items[0]] + items[1..];
    }
  }

  /** The items of one order, in list order. */
  function WithOrder(items: seq<MainMenuItem>, order: int): (r: seq<MainMenuItem>)
    ensures |r| <= |items|
  {
    if items == [] then []
    else (if items[0].order == order then [items[0]] else []) + WithOrder(items[1..], order)
  }

  /** Registration keeps the menu sorted. */
  lemma {:induction false} InsertSorted(items: seq<MainMenuItem>, item: MainMenuItem)
    requires SortedByOrder(items)
    ensures SortedByOrder(Insert(items, item))
    decreases |items|
  {
    if items != [] && item.order >= items[0].order {
      InsertSorted(items[1..], item);
      InsertAddsItem(items[1..], item);
      var rest := Insert(items[1..], item);
      assert forall k :: 0 <= k < |rest| ==> items[0].order <= rest[k].order by {
        forall k | 0 <= k < |rest| ensures items[0].order <= rest[k].order {
          assert rest[k] in multiset(rest);
          assert rest[k] in multiset(items[1..]) + multiset{item};
          if rest[k] != item {
            assert rest[k] in items[1..];
          }
        }
      }
    }
  }

  /** The sort is stable: the items of each order are the ones registered
      before, in their order, then the new item if it has that order. */
  lemma {:induction false} InsertStable(items: seq<MainMenuItem>, item: MainMenuItem, order: int)
    requires SortedByOrder(items)
    ensures WithOrder(Insert(items, item), order) == WithOrder(items, order) + (if item.order == order then [item] else [])
    decreases |items|
  {
    if items == [] {
    } else if item.order < items[0].order {
      if item.order == order {
        NoneBelow(items, order);
      }
    } else {
      InsertStable(items[1..], item, order);
    }
  }

  /** In a sorted menu whose first item has an order above `order`, no item
      has that order. */
  lemma {:induction false} NoneBelow(items: seq<MainMenuItem>, order: int)
    requires SortedByOrder(items) && items != [] && order < items[0].order
    ensures WithOrder(items, order) == []
    decreases |items|
  {
    if |items| > 1 {
      NoneBelow(items[1..], order);
    }
  }

  /** Where `Insert` puts the new item: after the items whose order is not
      larger, before the first one whose order is. */
  lemma {:induction false} InsertAt(items: seq<MainMenuItem>, item: MainMenuItem, k: nat)
    requires k <= |items|
    requires forall j :: 0 <= j < k ==> items[j].order <= item.order
    requires k < |items| ==> item.order < items[k].order
    ensures Insert(items, item) == items[..k] + [item] + items[k..]
    decreases k
  {
    if k > 0 {
      InsertAt(items[1..], item, k - 1);
      assert items[..k] == [items[0]] + items[1..][..k - 1];
      assert items[k..] == items[1..][k - 1..];
    } else {
      assert items[..0] == [] && items[0..] == items;
    }
  }

  /** The registry of adit_radis_shared/common/site.py. */
  class MenuRegistry {
    var items: seq<MainMenuItem>

    constructor ()
      ensures items == []
    {
      items := [];
    }

    /** `register_main_menu_item`: append, then sort by `order`. */
    method Register(item: MainMenuItem)
      requires SortedByOrder(items)
      modifies this
      ensures items == Insert(old(items), item)
      ensures SortedByOrder(items)
      ensures multiset(items) == multiset(old(items)) + multiset{item}
    {
      var k := 0;
      while k < |items| && items[k].order <= item.order
        invariant 0 <= k <= |items|
        invariant forall j :: 0 <= j < k ==> items[j].order <= item.order
      {
        k := k + 1;
      }
      InsertAt(items, item, k);
      InsertSorted(items, item);
      InsertAddsItem(items, item);
      items := items[..k] + [item] + items[k..];
    }
  }

  /** The registry of common/site.py. */
  class PlainMenuRegistry {
    var items: seq<PlainMenuItem>

    constructor ()
      ensures items == []
    {
      items := [];
    }

    /** `register_main_menu_item(url_name, label)`: appended at the end,
        the earlier entries untouched. */
    method Register(urlName: string, menuLabel: string)
      modifies this
      ensures items == old(items) + [PlainMenuItem(urlName, menuLabel)]
    {
      items := items + [PlainMenuItem(urlName, menuLabel)];
    }
  }

  /** Registering a list of entries with the plain registry gives them in
      registration order. */
  function PlainRegistered(entries: seq<(string, string)>): (r: seq<PlainMenuItem>)
    ensures |r| == |entries|
    ensures forall i :: 0 <= i < |entries| ==> r[i].urlName == entries[i].0 && r[i].menuLabel == entries[i].1
  {
    seq(|entries|, i requires 0 <= i < |entries| => PlainMenuItem(entries[i].0, entries[i].1))
  }

  /** The user whose request is being rendered: signed in with preferences,
      or not. */
  datatype RequestUser = AnonymousUser | LoggedIn(preferences: map<string, PrefValue>)

  /** `preferences.get(key, default)` */
  function PrefOr(prefs: map<string, PrefValue>, key: string, default: PrefValue): (r: PrefValue)
    ensures key in prefs ==> r == prefs[key]
    ensures key !in prefs ==> r == default
  {
    if key in prefs then prefs[key] else default
  }

  /** The theme and theme colour `base_context_processor` puts in the
      context (the same in both variants). */
  function Theme(user: RequestUser): (r: (PrefValue, PrefValue))
    ensures user.AnonymousUser? ==> r == (StrPref("auto"), StrPref("light"))
    ensures user.LoggedIn? ==>
      && r.0 == (if "theme" in user.preferences then user.preferences["theme"] else StrPref("auto"))
      && r.1 == (if "theme_color" in user.preferences then user.preferences["theme_color"] else StrPref("light"))
  {
    match user
    case AnonymousUser => (StrPref("auto"), StrPref("light"))
    case LoggedIn(prefs) => (PrefOr(prefs, "theme", StrPref("auto")), PrefOr(prefs, "theme_color", StrPref("light")))
  }

  /** The parts of the base context the model follows: the registry list
      itself, the theme pair and, in adit_radis_shared, the public
      `theme_preference_key`. */
  datatype BaseContext<Item> = BaseContext(mainMenuItems: seq<Item>, theme: PrefValue, themeColor: PrefValue,
                                     themePreferenceKey: Option<string>)

  /** `base_context_processor` of adit_radis_shared/common/site.py. */
  function BaseContextProcessor(menu: seq<MainMenuItem>, user: RequestUser): (r: BaseContext<MainMenuItem>)
    ensures r.mainMenuItems == menu
    ensures (r.theme, r.themeColor) == Theme(user)
    ensures r.themePreferenceKey == Some(ThemePreferenceKey)
  {
    var (theme, color) := Theme(user);
    BaseContext(menu, theme, color, Some(ThemePreferenceKey))
  }

  /** `base_context_processor` of common/site.py, which has no
      `theme_preference_key`. */
  function PlainBaseContextProcessor(menu: seq<PlainMenuItem>, user: RequestUser): (r: BaseContext<PlainMenuItem>)
    ensures r.mainMenuItems == menu
    ensures (r.theme, r.themeColor) == Theme(user)
    ensures r.themePreferenceKey.None?
  {
    var (theme, color) := Theme(user);
    BaseContext(menu, theme, color, None)
  }

  /** A theme a user stored through the preferences view is the theme the
      next page is rendered with. */
  lemma StoredThemeUsed(prefs: map<string, PrefValue>, posted: seq<(string, string)>)
    requires LastPosted(posted, ThemePreferenceKey).Some?
    ensures Theme(LoggedIn(Updated(prefs, posted))).0 == Coerce(LastPosted(posted, ThemePreferenceKey).value)
  {
    UpdatedLookup(prefs, posted, ThemePreferenceKey);
  }
}
