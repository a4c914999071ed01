/** The fix-up of the plugin's admin submenu: the first item, which the
    host names after the top-level page, is renamed "Dashboard" for users
    who may manage options and dropped for everyone else; the slug of the
    first item left is remembered in a transient. */
module AdminMenu {
  import opened Php

  /** One row of a submenu as the host stores it: title, required
      capability, slug and page title (indices 0 to 3). */
  datatype SubmenuItem = SubmenuItem(title: string, capability: string, slug: string, pageTitle: string)

  /** A submenu: a PHP array from integer positions to items, in order. */
  type Menu = seq<(int, SubmenuItem)>

  const ParentSlug := "cpseo"
  const PluginTitle := "Classic SEO"
  const DashboardTitle := "Dashboard"
  const FirstSubmenuKey := "cpseo_first_submenu_id"

  /** Entry 0 gets renamed rather than removed: the user may manage
      options and its title is exactly the plugin's name. */
  predicate Renames(m: Menu, canManage: bool)
  {
    canManage && Lookup(m, 0).Some? && Lookup(m, 0).value.title == PluginTitle
  }

  /** The plugin's submenu after the fix-up. */
  function FixedMenu(m: Menu, canManage: bool): (r: Menu)
    requires DistinctKeys(m)
    ensures DistinctKeys(r)
  {
    if Renames(m, canManage) then
      Assign(m, 0, Lookup(m, 0).value.(title := DashboardTitle))
    else
      Unset(m, 0)
  }

  /** A rename touches nothing but the title of entry 0: every entry stays
      at its place with its key, and every other field and entry is as it
      was. */
  lemma RenameOnlyRetitles(m: Menu, canManage: bool)
    requires DistinctKeys(m) && Renames(m, canManage)
    ensures var r := FixedMenu(m, canManage);
      && |r| == |m|
      && (forall i :: 0 <= i < |m| && m[i].0 != 0 ==> r[i] == m[i])
      && (forall i :: 0 <= i < |m| && m[i].0 == 0 ==>
            r[i] == (0, m[i].1.(title := DashboardTitle)))
  {
    var r := FixedMenu(m, canManage);
    var j := Find(m, 0).value;
    var item := Lookup(m, 0).value;
    assert r == m[j := (0, item.(title := DashboardTitle))];
    forall i | 0 <= i < |m| && m[i].0 == 0
      ensures r[i] == (0, m[i].1.(title := DashboardTitle))
    {
      assert i == j;
    }
  }

  /** Otherwise entry 0 is removed, if there is one, and the other
      entries keep their keys and their relative order. */
  lemma RemoveKeepsOrder(m: Menu, canManage: bool)
    requires DistinctKeys(m) && !Renames(m, canManage)
    ensures 0 !in Keys(m) ==> FixedMenu(m, canManage) == m
    ensures forall i :: 0 <= i < |m| && m[i].0 == 0 ==> FixedMenu(m, canManage) == m[..i] + m[i + 1..]
  {
    if 0 !in Keys(m) {
      WithoutKeyAbsent(m, 0);
    }
    forall i | 0 <= i < |m| && m[i].0 == 0
      ensures FixedMenu(m, canManage) == m[..i] + m[i + 1..]
    {
      UnsetAt(m, 0, i);
    }
  }

  /** The item whose slug is recorded: after a rename it is the menu's
      first item with the same slug as before; when entry 0 came first and
      is removed, it is the item that followed it. */
  lemma FirstRemaining(m: Menu, canManage: bool)
    requires DistinctKeys(m) && m != []
    ensures Renames(m, canManage) ==>
      FixedMenu(m, canManage) != [] && FixedMenu(m, canManage)[0].1.slug == m[0].1.slug
    ensures !Renames(m, canManage) && m[0].0 == 0 ==> FixedMenu(m, canManage) == m[1..]
    ensures !Renames(m, canManage) && 0 !in Keys(m) ==> FixedMenu(m, canManage) == m
  {
    if Renames(m, canManage) {
      RenameOnlyRetitles(m, canManage);
    } else {
      RemoveKeepsOrder(m, canManage);
      if m[0].0 == 0 {
        assert m[..0] + m[1..] == m[1..];
      }
    }
  }

  /** The host's global `$submenu` table and the site's transients. */
  class AdminMenu {
    var submenu: map<string, Menu>
    var transients: map<string, string>

    /** Every submenu is a PHP array: no key twice. */
    ghost predicate Valid()
      reads this
    {
      forall k :: k in submenu ==> DistinctKeys(submenu[k])
    }

    /** `Admin_Menu::fix_first_submenu`. */
    method FixFirstSubmenu(canManage: bool)
      requires Valid()
      modifies this
      ensures Valid()
      ensures ParentSlug !in old(submenu) ==> submenu == old(submenu) && transients == old(transients)
      ensures ParentSlug in old(submenu) ==>
        submenu == old(submenu)[ParentSlug := FixedMenu(old(submenu)[ParentSlug], canManage)]
      ensures ParentSlug in old(submenu) && submenu[ParentSlug] == [] ==> transients == old(transients)
      ensures ParentSlug in old(submenu) && submenu[ParentSlug] != [] ==>
        transients == old(transients)[FirstSubmenuKey := submenu[ParentSlug][0].1.slug]
    {
      if ParentSlug !in submenu {
        return;
      }
      var menu := submenu[ParentSlug];
      var first := Lookup(menu, 0);
      if canManage && first.Some? && first.value.title == PluginTitle {
        submenu := submenu[ParentSlug := Assign(menu, 0, first.value.(title := DashboardTitle))];
      } else {
        submenu := submenu[ParentSlug := Unset(menu, 0)];
      }
      if |submenu[ParentSlug]| == 0 {
        return;
      }
      transients := transients[FirstSubmenuKey := Values(submenu[ParentSlug])[0].slug];
    }
  }
}
