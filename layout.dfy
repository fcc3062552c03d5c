/**
 * The application frame: the name and initials shown for the signed-in
 * user, and the mobile header that hides while scrolling down and comes
 * back when scrolling up or near the top.
 */
module Layout {
  import opened Text
  import opened Wrappers

  const ScrollDownThreshold: real := 50.0
  const ScrollUpThreshold: real := 20.0

  /** Reference definition: the text before the first `@` (all of it when there is none). */
  function LocalPart(s: string): (r: string)
    ensures |r| <= |s| && NoChar(r, '@')
  {
    s[..IndexOf(s, '@')]
  }

  /** `getInitial`: "U" when there is nothing to take, else the first two characters of the local part in upper case. */
  function GetInitial(nameOrEmail: Option<string>): (r: string)
    ensures nameOrEmail.None? || LocalPart(nameOrEmail.value) == [] ==> r == "U"
    ensures nameOrEmail.Some? && LocalPart(nameOrEmail.value) != [] ==>
              r == Upper(Take(LocalPart(nameOrEmail.value), 2)) && 1 <= |r| <= 2
  {
    if nameOrEmail.None? || nameOrEmail.value == [] then "U"
    else
      var s := nameOrEmail.value;
      var part := if '@' in s then Split(s, '@')[0] else s;
      SplitHead(s, '@');
      if part == [] then "U" else Upper(Take(part, 2))
  }

  /** `getDisplayNameFromEmail`: "User", or the local part with its first character in upper case. */
  function GetDisplayNameFromEmail(email: Option<string>): (r: string)
    ensures email.None? || LocalPart(email.value) == [] ==> r == "User"
    ensures email.Some? && LocalPart(email.value) != [] ==>
              var part := LocalPart(email.value);
              |r| == |part| && r[0] == ToUpperChar(part[0]) && r[1..] == part[1..]
  {
    if email.None? || email.value == [] then "User"
    else
      var part := Split(email.value, '@')[0];
      SplitHead(email.value, '@');
      if part == [] then "User" else Upper([part[0]]) + part[1..]
  }

  /** The name in the header: the trimmed profile name when it is not blank, else the name taken from the email. */
  function DisplayName(profileName: Option<string>, email: Option<string>): (r: string)
    ensures profileName.Some? && Trim(profileName.value) != [] ==> r == Trim(profileName.value)
    ensures !(profileName.Some? && Trim(profileName.value) != []) ==> r == GetDisplayNameFromEmail(email)
  {
    if profileName.Some? && Trim(profileName.value) != [] then Trim(profileName.value)
    else GetDisplayNameFromEmail(email)
  }

  /** `getInitial(displayName || user?.email)`. */
  function HeaderInitial(profileName: Option<string>, email: Option<string>): string
  {
    var name := DisplayName(profileName, email);
    GetInitial(if name != [] then Some(name) else email)
  }

  /** The display name is never empty, so the initial is always taken from it and the email fallback is never used. */
  lemma DisplayNameNonEmpty(profileName: Option<string>, email: Option<string>)
    ensures DisplayName(profileName, email) != []
    ensures HeaderInitial(profileName, email) == GetInitial(Some(DisplayName(profileName, email)))
  {
  }

  /** A name without `@` gives the first two characters of the name itself, in upper case. */
  lemma InitialOfName(name: string)
    requires name != [] && NoChar(name, '@')
    ensures GetInitial(Some(name)) == Upper(Take(name, 2))
  {
    assert name[..|name|] == name;
  }

  /** The scroll state of the mobile header. */
  class HeaderScroll {
    var lastScrollTop: real
    var showMobileHeader: bool

    /** The header is only hidden after the page has been scrolled past the lower threshold. */
    predicate Valid()
      reads this
    {
      !showMobileHeader ==> lastScrollTop > ScrollDownThreshold
    }

    constructor()
      ensures lastScrollTop == 0.0 && showMobileHeader && Valid()
    {
      lastScrollTop, showMobileHeader := 0.0, true;
    }

    /** The scroll handler, for the new scroll position of the main area. */
    method OnScroll(scrollTop: real)
      requires Valid()
      modifies this
      ensures Valid()
      ensures lastScrollTop == scrollTop
      ensures scrollTop <= ScrollUpThreshold ==> showMobileHeader
      ensures scrollTop > ScrollUpThreshold && scrollTop > old(lastScrollTop) && scrollTop > ScrollDownThreshold ==>
                !showMobileHeader
      ensures scrollTop > ScrollUpThreshold && scrollTop < old(lastScrollTop) ==> showMobileHeader
      ensures scrollTop > ScrollUpThreshold && scrollTop >= old(lastScrollTop)
              && !(scrollTop > old(lastScrollTop) && scrollTop > ScrollDownThreshold) ==>
                showMobileHeader == old(showMobileHeader)
    {
      if scrollTop <= ScrollUpThreshold {
        showMobileHeader := true;
      } else if scrollTop > lastScrollTop && scrollTop > ScrollDownThreshold {
        showMobileHeader := false;
      } else if scrollTop < lastScrollTop {
        showMobileHeader := true;
      }
      lastScrollTop := scrollTop;
    }

    /** The header is shown when the scroll rule shows it or when the mobile menu is open. */
    predicate HeaderVisible(mobileOpen: bool)
      reads this
    {
      showMobileHeader || mobileOpen
    }
  }

  /** An open mobile menu always shows the header, whatever the scroll state. */
  lemma MenuShowsHeader(h: HeaderScroll)
    ensures h.HeaderVisible(true)
  {
  }
}
