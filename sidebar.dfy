/**
 * The admin sidebar: the list of expanded menu groups, toggled by name, and the test that
 * highlights the menu entry of the current page.
 */
module Sidebar {
  import opened Text
  import opened Seqs

  predicate NoDuplicates(s: seq<string>) {
    forall i, j :: 0 <= i < j < |s| ==> s[i] != s[j]
  }

  /** `toggleExpanded`'s update: drop every copy of a present name, append an absent one. */
  function Toggled(items: seq<string>, name: string): (r: seq<string>)
    ensures name in items ==> name !in r && IsSubsequence(r, items)
    ensures name !in items ==> r == items + [name]
    ensures forall x :: x != name ==> (x in r <==> x in items)
  {
    if name in items then
      var r := Filter(items, (item: string) => item != name);
      FilterIsSubsequence(items, (item: string) => item != name);
      r
    else items + [name]
  }

  /** Removing a name keeps the order of the others and creates no duplicates. */
  lemma {:induction false} FilterKeepsNoDuplicates(items: seq<string>, name: string)
    requires NoDuplicates(items)
    ensures NoDuplicates(Filter(items, (item: string) => item != name))
  {
    if items != [] {
      FilterKeepsNoDuplicates(items[1..], name);
      var rest := Filter(items[1..], (item: string) => item != name);
      assert items[0] !in items[1..];
      assert items[0] !in rest;
    }
  }

  /** Toggling never creates a duplicate, so a list that starts empty never holds one. */
  lemma ToggleKeepsNoDuplicates(items: seq<string>, name: string)
    requires NoDuplicates(items)
    ensures NoDuplicates(Toggled(items, name))
  {
    if name in items {
      FilterKeepsNoDuplicates(items, name);
    }
  }

  /** Toggling the same name twice gives back the same set of names; for an absent name, the same list. */
  lemma ToggleTwice(items: seq<string>, name: string)
    ensures forall x :: x in Toggled(Toggled(items, name), name) <==> x in items
    ensures name !in items ==> Toggled(Toggled(items, name), name) == items
  {
    if name !in items {
      var once := items + [name];
      assert name in once;
      FilterAppend(items, [name], (item: string) => item != name);
      FilterAll(items, (item: string) => item != name);
      assert Filter([name], (item: string) => item != name) == [];
    }
  }

  /** `isActive`: the dashboard only on its own path, every other entry on any path below it. */
  function IsActive(pathname: string, href: string): (b: bool)
    ensures href == "/admin" ==> (b <==> pathname == "/admin")
    ensures href != "/admin" ==> (b <==> StartsWith(pathname, href))
  {
    if href == "/admin" then pathname == "/admin" else StartsWith(pathname, href)
  }

  /** On a page below a section, that section is highlighted but the dashboard is not. */
  lemma SectionPagesHighlightSection(href: string, rest: string)
    requires href != "/admin" && rest != ""
    ensures IsActive(href + rest, href)
    ensures href + rest != "/admin" ==> !IsActive(href + rest, "/admin")
  {
    assert (href + rest)[..|href|] == href;
  }

  /** The sidebar's state. */
  class SidebarState {
    var expandedItems: seq<string>

    /** No group is listed twice. */
    predicate Valid()
      reads this
    {
      NoDuplicates(expandedItems)
    }

    /** `useState<string[]>([])`. */
    constructor()
      ensures expandedItems == [] && Valid()
    {
      expandedItems := [];
    }

    /** `toggleExpanded(name)`. */
    method ToggleExpanded(name: string)
      requires Valid()
      modifies this
      ensures expandedItems == Toggled(old(expandedItems), name)
      ensures Valid()
      ensures name in expandedItems <==> name !in old(expandedItems)
    {
      ToggleKeepsNoDuplicates(expandedItems, name);
      expandedItems := Toggled(expandedItems, name);
    }
  }
}
