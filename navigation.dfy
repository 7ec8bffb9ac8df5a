/** The site navigation bar, which hides itself on the admin and login pages. */
module Navigation {
  import opened Common

  /** `pathname?.startsWith('/admin') || pathname === '/login'`. */
  predicate Hidden(pathname: Option<string>): (h: bool)
    ensures pathname.None? ==> !h
    ensures pathname.Some? && "/admin" <= pathname.value ==> h
    ensures h && !("/admin" <= pathname.value) ==> pathname.value == "/login"
  {
    pathname.Some? && ("/admin" <= pathname.value || pathname.value == "/login")
  }

  datatype NavItem = NavItem(text: string, target: string)

  datatype NavBar = NavBar(brand: string, brandHref: string, items: seq<NavItem>)

  /** The ids of the sections on the home page that the buttons scroll to. */
  const Sections: seq<string> := ["work", "about", "contact"]

  /** The buttons of the bar as the source lists them: Contact scrolls to `about`. */
  const AsWrittenItems: seq<NavItem> :=
    [NavItem("Work", "work"), NavItem("About", "about"), NavItem("Contact", "about")]

  /** The buttons with Contact scrolling to the `contact` section. */
  const Items: seq<NavItem> :=
    [NavItem("Work", "work"), NavItem("About", "about"), NavItem("Contact", "contact")]

  /** Each button scrolls to a section of the page, and no two buttons to the same one. */
  predicate ReachesDistinctSections(items: seq<NavItem>)
  {
    && (forall i :: 0 <= i < |items| ==> items[i].target in Sections)
    && (forall i, j :: 0 <= i < j < |items| ==> items[i].target != items[j].target)
  }

  /** As written, About and Contact both land on `about`; `contact` is never reached. */
  lemma AsWrittenContactMissesSection()
    ensures AsWrittenItems[1].target == AsWrittenItems[2].target == "about"
    ensures !ReachesDistinctSections(AsWrittenItems)
    ensures forall i :: 0 <= i < |AsWrittenItems| ==> AsWrittenItems[i].target != "contact"
  {
  }

  /** With the correction the three buttons reach the three sections. */
  lemma ItemsReachDistinctSections()
    ensures ReachesDistinctSections(Items)
    ensures forall s :: s in Sections ==> exists i :: 0 <= i < |Items| && Items[i].target == s
  {
    assert Items[0].target == Sections[0];
    assert Items[1].target == Sections[1];
    assert Items[2].target == Sections[2];
  }

  /**
   * The rendered navigation: nothing on hidden paths, the bar everywhere
   * else, with the buttons as the source lists them.
   */
  function Render(pathname: Option<string>): (bar: Option<NavBar>)
    ensures bar.None? <==> Hidden(pathname)
    ensures bar.Some? ==> bar.value.brand == "Portfolio" && bar.value.brandHref == "/"
    ensures bar.Some? ==> bar.value.items == AsWrittenItems
    ensures bar.Some? ==> forall i :: 0 <= i < |bar.value.items| ==> bar.value.items[i].target in Sections
    ensures bar.Some? ==> !ReachesDistinctSections(bar.value.items)
  {
    AsWrittenContactMissesSection();
    if Hidden(pathname) then None else Some(NavBar("Portfolio", "/", AsWrittenItems))
  }

  /** The admin prefix is a plain string prefix: `/administrator` is hidden too. */
  lemma AdministratorHidden()
    ensures Hidden(Some("/admin")) && Hidden(Some("/admin/projects")) && Hidden(Some("/administrator"))
  {
    assert "/admin" <= "/admin/projects";
    assert "/admin" <= "/administrator";
  }

  /** `/login` is hidden only exactly: a path below it shows the bar. */
  lemma LoginExactOnly()
    ensures Hidden(Some("/login"))
    ensures !Hidden(Some("/login/x"))
  {
    assert "/login/x"[1] == 'l' && "/admin"[1] == 'a';
  }

  /** Without a pathname the bar is shown; on the home page too. */
  lemma NoPathnameShows()
    ensures !Hidden(None) && Render(None).Some?
    ensures !Hidden(Some("/")) && Render(Some("/")).Some?
  {
    assert "/"[..1] == "/";
  }
}
