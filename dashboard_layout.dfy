/**
  The dashboard shell: the sidebar's active link derived from the route,
  the highlight of the matching entry, the "Log Out" entry, and the
  effects on the `ui` slice when the route or the window changes and when
  a link is clicked.
*/
module DashboardLayout {
  import opened JsValues
  import opened JsStrings
  import opened Storage
  import opened UiSlice
  import AuthSlice

  /** `location.pathname.split("/").slice(1).join("/")`. */
  function ActiveLink(pathname: string): string {
    Join(Split(pathname, '/')[1..], '/')
  }

  /** The active link is what follows the first "/" of the path. */
  lemma ActiveLinkAfterFirstSlash(pathname: string, i: nat)
    requires i < |pathname| && pathname[i] == '/'
    requires forall j :: 0 <= j < i ==> pathname[j] != '/'
    ensures ActiveLink(pathname) == pathname[i + 1..]
  {
    JoinSplitTail(pathname, '/', i);
  }

  /** A path without "/" has the empty active link. */
  lemma ActiveLinkWithoutSlash(pathname: string)
    requires forall j :: 0 <= j < |pathname| ==> pathname[j] != '/'
    ensures ActiveLink(pathname) == ""
  {
    SplitWithoutSeparator(pathname, '/');
  }

  /** Following a sidebar link to "/" + path makes path the active link, slashes inside it included. */
  lemma ActiveLinkRoundTrip(path: string)
    ensures ActiveLink("/" + path) == path
  {
    ActiveLinkAfterFirstSlash("/" + path, 0);
    assert ("/" + path)[1..] == path;
  }

  datatype SidebarLink = SidebarLink(name: string, path: string)

  /** What `renderSidebarLink` draws: the logout button, or a link with its target and highlight. */
  datatype RenderedLink = LogoutButton | NavLink(to: string, highlighted: bool)

  const LogOutName: string := "Log Out"

  /** `activeSidebarLink === path`; a `null` active link highlights nothing. */
  predicate IsHighlighted(active: Option<string>, path: string) {
    active == Some(path)
  }

  function RenderSidebarLink(link: SidebarLink, active: Option<string>): (r: RenderedLink)
    ensures r.LogoutButton? <==> link.name == LogOutName
    ensures r.NavLink? ==> r.to == "/" + link.path && (r.highlighted <==> IsHighlighted(active, link.path))
  {
    if link.name == LogOutName then LogoutButton
    else NavLink("/" + link.path, IsHighlighted(active, link.path))
  }

  /** After navigating through a rendered link, that same link is drawn highlighted. */
  lemma FollowedLinkHighlighted(link: SidebarLink, before: Option<string>)
    requires link.name != LogOutName
    ensures var r := RenderSidebarLink(link, before);
      RenderSidebarLink(link, Some(ActiveLink(r.to))) == NavLink(r.to, true)
  {
    ActiveLinkRoundTrip(link.path);
  }

  /**
    The effect that runs when the location changes: the active link is
    recomputed and the device width is read again.
  */
  method OnLocationChange(ui: UiState, pathname: string, innerWidth: int)
    modifies ui
    ensures ui.activeSidebarLink == Some(ActiveLink(pathname))
    ensures ui.WidthDerived(innerWidth) && ui.isSidebarOpen != ui.isMobileDevice
    ensures ui.theme == old(ui.theme) && ui.isLoading == old(ui.isLoading)
  {
    ui.SetActiveSidebarLink(Some(ActiveLink(pathname)));
    ui.SetDeviceWidth(innerWidth);
  }

  /** A link's click handler: `isMobileDevice && dispatch(toggleSidebar())`. */
  method OnLinkClick(ui: UiState)
    modifies ui
    ensures ui.isSidebarOpen == if old(ui.isMobileDevice) then !old(ui.isSidebarOpen) else old(ui.isSidebarOpen)
    ensures ui.theme == old(ui.theme) && ui.activeSidebarLink == old(ui.activeSidebarLink)
    ensures ui.isLoading == old(ui.isLoading) && ui.isMobileDevice == old(ui.isMobileDevice)
  {
    if ui.isMobileDevice {
      ui.ToggleSidebar();
    }
  }

  /** `handleLogout`: removes the stored user and token and leads to "/". */
  method HandleLogout(storage: LocalStorage) returns (navigateTo: string)
    modifies storage
    ensures storage.items == old(storage.items) - {AuthSlice.UserKey, AuthSlice.TokenKey}
    ensures navigateTo == "/"
  {
    storage.RemoveItem(AuthSlice.UserKey);
    storage.RemoveItem(AuthSlice.TokenKey);
    navigateTo := "/";
  }

  /**
    The layout's logout clears storage only: the `auth` slice still holds
    the session until the page reloads.
  */
  method LogoutLeavesSessionInStore(auth: AuthSlice.AuthState)
    requires auth.Valid() && auth.isAuthenticated
    modifies auth.storage
    ensures auth.isAuthenticated && auth.token == old(auth.token) && auth.user == old(auth.user)
    ensures auth.storage.GetItem(AuthSlice.TokenKey) == None
    ensures auth.storage.GetItem(AuthSlice.UserKey) == None
  {
    var _ := HandleLogout(auth.storage);
  }
}
