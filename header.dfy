/**
 * The page header (src/components/Header.tsx): which navigation item is
 * highlighted for the current path, and the two menu flags.
 */
module Header {
  import opened Sequences

  const NavigationItems: seq<string> := ["/", "/my-rides", "/analytics"]

  /** `isActiveRoute`: the home item only on "/" itself, any other item on every path it prefixes. */
  function IsActiveRoute(pathname: string, href: string): (b: bool)
    ensures href == "/" ==> (b <==> pathname == "/")
    ensures href != "/" ==> (b <==> |href| <= |pathname| && pathname[..|href|] == href)
  {
    if href == "/" then pathname == "/"
    else StartsWith(pathname, href)
  }

  /** Whatever the path, at most one navigation item is highlighted. */
  lemma AtMostOneActive(pathname: string, i: nat, j: nat)
    requires i < j < |NavigationItems|
    ensures !(IsActiveRoute(pathname, NavigationItems[i]) && IsActiveRoute(pathname, NavigationItems[j]))
  {
    if pathname == "/" {
      assert |pathname| < |NavigationItems[j]|;
    } else if StartsWith(pathname, NavigationItems[1]) {
      assert pathname[1] == NavigationItems[1][1] != NavigationItems[2][1];
    }
  }

  /** The prefix test does not stop at a path segment: "/analyticsX" highlights "/analytics", and "/" highlights only home. */
  lemma PrefixNotSegmentAware()
    ensures IsActiveRoute("/analyticsX", "/analytics")
    ensures IsActiveRoute("/my-rides/42", "/my-rides")
    ensures !IsActiveRoute("/", "/my-rides") && !IsActiveRoute("/my-rides", "/")
  {
    assert "/analyticsX"[..10] == "/analytics";
    assert "/my-rides/42"[..9] == "/my-rides";
  }

  /** The profile dropdown and the mobile menu. */
  class HeaderMenus {
    var isMobileMenuOpen: bool
    var isProfileDropdownOpen: bool

    constructor ()
      ensures !isMobileMenuOpen && !isProfileDropdownOpen
    {
      isMobileMenuOpen := false;
      isProfileDropdownOpen := false;
    }

    /** The avatar button. */
    method ToggleProfileDropdown()
      modifies this
      ensures isProfileDropdownOpen == !old(isProfileDropdownOpen)
      ensures isMobileMenuOpen == old(isMobileMenuOpen)
    {
      isProfileDropdownOpen := !isProfileDropdownOpen;
    }

    /** Any entry of the dropdown (profile, messages, log out). */
    method CloseProfileDropdown()
      modifies this
      ensures !isProfileDropdownOpen
      ensures isMobileMenuOpen == old(isMobileMenuOpen)
    {
      isProfileDropdownOpen := false;
    }

    /** The hamburger button. */
    method ToggleMobileMenu()
      modifies this
      ensures isMobileMenuOpen == !old(isMobileMenuOpen)
      ensures isProfileDropdownOpen == old(isProfileDropdownOpen)
    {
      isMobileMenuOpen := !isMobileMenuOpen;
    }

    /** Any link of the mobile menu. */
    method CloseMobileMenu()
      modifies this
      ensures !isMobileMenuOpen
      ensures isProfileDropdownOpen == old(isProfileDropdownOpen)
    {
      isMobileMenuOpen := false;
    }

    /** Two presses of a toggle restore both flags. */
    method ToggleTwice()
      modifies this
      ensures isMobileMenuOpen == old(isMobileMenuOpen) && isProfileDropdownOpen == old(isProfileDropdownOpen)
    {
      ToggleMobileMenu();
      ToggleMobileMenu();
      ToggleProfileDropdown();
      ToggleProfileDropdown();
    }
  }
}
