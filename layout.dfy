/** The application shell: the navigation table, the rule that marks a
    navigation entry active for the current path, the mobile bottom bar with
    its shortened labels, and the three open/closed flags of the shell. */
module Layout {
  import opened Text

  /** A navigation entry; `caption` is the source's `label` field, whose name is a Dafny keyword. */
  datatype NavItem = NavItem(path: string, caption: string)

  /** `navItems`, in display order. */
  const NavItems: seq<NavItem> := [
    NavItem("/", "Dashboard"),
    NavItem("/inventory", "Inventory"),
    NavItem("/sales-orders", "Sales Orders"),
    NavItem("/purchase-orders", "Purchase Orders"),
    NavItem("/finance", "Finance"),
    NavItem("/reports", "Reports"),
    NavItem("/settings", "Settings")
  ]

  /** `isActive(path)` for the current `pathname`: the root entry only on the
      root itself, every other entry on every path that starts with its own. */
  predicate IsActive(pathname: string, path: string): (b: bool)
    ensures b ==> exists rest :: pathname == path + rest
    ensures path == "/" && pathname != "/" ==> !b
  {
    if path == "/" then
      assert pathname == "/" ==> pathname == path + [];
      pathname == "/"
    else IsPrefix(path, pathname)
  }

  /** The root entry is active on "/" alone, even though every path starts
      with "/"; any other entry is active exactly on its own path followed by
      anything at all. */
  lemma ActiveRule(pathname: string, k: nat)
    requires k < |NavItems|
    ensures k == 0 ==> (IsActive(pathname, NavItems[k].path) <==> pathname == "/")
    ensures k != 0 ==> (IsActive(pathname, NavItems[k].path) <==> exists rest :: pathname == NavItems[k].path + rest)
  {
    var p := NavItems[k].path;
    if k != 0 {
      assert p != "/";
      if IsPrefix(p, pathname) {
        assert pathname == p + pathname[|p|..];
      }
      if exists rest :: pathname == p + rest {
        var rest :| pathname == p + rest;
        assert pathname[..|p|] == p;
      }
    }
  }

  /** Every non-root entry's path has at least three characters, and its
      second and third characters tell it apart from every other entry. */
  lemma NavPathsFacts()
    ensures |NavItems| == 7 && NavItems[0].path == "/"
    ensures forall j :: 1 <= j < |NavItems| ==> |NavItems[j].path| >= 3
    ensures forall j, k :: 1 <= j < |NavItems| && 1 <= k < |NavItems| && j != k ==>
      NavItems[j].path[1] != NavItems[k].path[1] || NavItems[j].path[2] != NavItems[k].path[2]
  {
    assert NavItems[1].path[1] == 'i';
    assert NavItems[2].path[1] == 's' && NavItems[2].path[2] == 'a';
    assert NavItems[3].path[1] == 'p';
    assert NavItems[4].path[1] == 'f';
    assert NavItems[5].path[1] == 'r';
    assert NavItems[6].path[1] == 's' && NavItems[6].path[2] == 'e';
  }

  /** At most one entry is active, whatever the path: the root entry is active
      only on "/", on which no other entry is, and no non-root path is a
      prefix of another. */
  lemma AtMostOneActive(pathname: string)
    ensures forall j, k ::
      (0 <= j < |NavItems| && 0 <= k < |NavItems|
       && IsActive(pathname, NavItems[j].path) && IsActive(pathname, NavItems[k].path)) ==> j == k
  {
    NavPathsFacts();
    forall j, k | 0 <= j < |NavItems| && 0 <= k < |NavItems|
      && IsActive(pathname, NavItems[j].path) && IsActive(pathname, NavItems[k].path)
      ensures j == k
    {
      var a, b := NavItems[j].path, NavItems[k].path;
      if j != 0 && k != 0 {
        assert a[1] == pathname[1] && a[2] == pathname[2];
        assert b[1] == pathname[1] && b[2] == pathname[2];
      }
    }
  }

  /** On the path of an entry, that entry and no other is active. */
  lemma ExactlyThisActive(k: nat)
    requires k < |NavItems|
    ensures forall j :: 0 <= j < |NavItems| ==> (IsActive(NavItems[k].path, NavItems[j].path) <==> j == k)
  {
    AtMostOneActive(NavItems[k].path);
    assert IsActive(NavItems[k].path, NavItems[k].path);
  }

  /** The mobile bottom bar: the first four entries, in table order. */
  function BottomNavItems(): (r: seq<NavItem>)
    ensures |r| == 4
    ensures forall i :: 0 <= i < |r| ==> r[i] == NavItems[i]
  {
    NavItems[..4]
  }

  /** `label.split(' ')[0]`: the text before the first space, or the whole
      label when it has none. */
  function FirstWord(text: string): (w: string)
    ensures IsPrefix(w, text)
    ensures forall i :: 0 <= i < |w| ==> w[i] != ' '
    ensures |w| < |text| ==> text[|w|] == ' '
  {
    if text == [] then []
    else if text[0] == ' ' then []
    else [text[0]] + FirstWord(text[1..])
  }

  /** The first word of a label is determined by the three properties of
      `FirstWord`: any prefix without spaces that stops at a space or at the
      end is that word. */
  lemma {:induction false} FirstWordIsUnique(text: string, w: string)
    requires IsPrefix(w, text)
    requires forall i :: 0 <= i < |w| ==> w[i] != ' '
    requires |w| < |text| ==> text[|w|] == ' '
    ensures w == FirstWord(text)
  {
    if text != [] && w != [] {
      assert w[0] == text[0];
      assert IsPrefix(w[1..], text[1..]) by {
        assert text[1..][..|w| - 1] == text[..|w|][1..];
      }
      FirstWordIsUnique(text[1..], w[1..]);
    }
  }

  predicate HasNoSpace(s: string)
  {
    forall i :: 0 <= i < |s| ==> s[i] != ' '
  }

  /** A word without spaces is its own first word, and so it is of itself
      followed by a space and anything else. */
  lemma {:induction false} FirstWordOfWords(word: string, rest: string)
    requires HasNoSpace(word)
    ensures FirstWord(word) == word
    ensures FirstWord(word + " " + rest) == word
  {
    if word != [] {
      FirstWordOfWords(word[1..], rest);
      assert (word + " " + rest)[1..] == word[1..] + " " + rest;
    } else {
      assert (word + " " + rest)[0] == ' ';
    }
  }

  /** The four table labels of the bottom bar, split at their spaces. */
  lemma BottomNavWords()
    ensures BottomNavItems()[0].caption == "Dashboard" && HasNoSpace("Dashboard")
    ensures BottomNavItems()[1].caption == "Inventory" && HasNoSpace("Inventory")
    ensures BottomNavItems()[2].caption == "Sales" + " " + "Orders" && HasNoSpace("Sales")
    ensures BottomNavItems()[3].caption == "Purchase" + " " + "Orders" && HasNoSpace("Purchase")
  {
  }

  /** The four bottom-bar labels read Dashboard, Inventory, Sales, Purchase. */
  lemma BottomNavLabels()
    ensures FirstWord(BottomNavItems()[0].caption) == "Dashboard"
    ensures FirstWord(BottomNavItems()[1].caption) == "Inventory"
    ensures FirstWord(BottomNavItems()[2].caption) == "Sales"
    ensures FirstWord(BottomNavItems()[3].caption) == "Purchase"
  {
    BottomNavWords();
    FirstWordOfWords("Dashboard", "");
    FirstWordOfWords("Inventory", "");
    FirstWordOfWords("Sales", "Orders");
    FirstWordOfWords("Purchase", "Orders");
  }

  /** The shell's three flags: the mobile sidebar sheet, the collapsed
      desktop sidebar, and the bottom bar's "More" menu. */
  class Shell {
    var sidebarOpen: bool
    var sidebarCollapsed: bool
    var moreMenuOpen: bool

    /** All three start closed. */
    constructor ()
      ensures !sidebarOpen && !sidebarCollapsed && !moreMenuOpen
    {
      sidebarOpen := false;
      sidebarCollapsed := false;
      moreMenuOpen := false;
    }

    /** The collapse button. */
    method ToggleCollapse()
      modifies this
      ensures sidebarCollapsed == !old(sidebarCollapsed)
      ensures sidebarOpen == old(sidebarOpen) && moreMenuOpen == old(moreMenuOpen)
    {
      sidebarCollapsed := !sidebarCollapsed;
    }

    /** The bottom bar's "More" button. */
    method ToggleMoreMenu()
      modifies this
      ensures moreMenuOpen == !old(moreMenuOpen)
      ensures sidebarOpen == old(sidebarOpen) && sidebarCollapsed == old(sidebarCollapsed)
    {
      moreMenuOpen := !moreMenuOpen;
    }

    /** The sheet's open/close notification, and the header's menu button
        (which opens it). */
    method SetSidebarOpen(open: bool)
      modifies this
      ensures sidebarOpen == open
      ensures sidebarCollapsed == old(sidebarCollapsed) && moreMenuOpen == old(moreMenuOpen)
    {
      sidebarOpen := open;
    }

    /** A click on a sidebar entry closes the sheet. */
    method FollowSidebarLink()
      modifies this
      ensures !sidebarOpen
      ensures sidebarCollapsed == old(sidebarCollapsed) && moreMenuOpen == old(moreMenuOpen)
    {
      SetSidebarOpen(false);
    }

    /** Pressing the collapse button twice restores every flag. */
    method ToggleCollapseTwice()
      modifies this
      ensures sidebarCollapsed == old(sidebarCollapsed)
      ensures sidebarOpen == old(sidebarOpen) && moreMenuOpen == old(moreMenuOpen)
    {
      ToggleCollapse();
      ToggleCollapse();
    }
  }
}
