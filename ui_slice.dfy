/**
  The `ui` slice of the store: theme, sidebar, active link, loading flag
  and mobile detection. Each reducer assigns fields of the state in place;
  `toggleTheme` also persists the theme in `localStorage`.
*/
module UiSlice {
  import opened JsValues
  import opened Storage

  /** Widths below this many pixels count as a mobile device. */
  const MobileBreakpoint: int := 768

  const Dark: string := "dark"
  const Light: string := "light"

  /** The theme `toggleTheme` switches to: light from dark, dark from anything else. */
  function ToggledTheme(theme: string): (r: string)
    ensures r == Dark || r == Light
    ensures r == Light <==> theme == Dark
  {
    if theme == Dark then Light else Dark
  }

  /** On the two themes the store knows, toggling twice restores the theme. */
  lemma ToggleThemeInvolution(theme: string)
    requires theme == Dark || theme == Light
    ensures ToggledTheme(ToggledTheme(theme)) == theme
    ensures ToggledTheme(theme) != theme
  {
  }

  /**
    A stored theme outside the two known ones (the cast in the source does
    not check it) is not restored by two toggles: it becomes dark, then light.
  */
  lemma ToggleThemeUnknownStoredTheme()
    ensures ToggledTheme(ToggledTheme("blue")) == Light
  {
  }

  class UiState {
    var theme: string
    var isSidebarOpen: bool
    var activeSidebarLink: Option<string>
    var isLoading: bool
    var isMobileDevice: bool
    const storage: LocalStorage

    /** Exactly one of "mobile" and "sidebar open" holds, as the device width decides. */
    predicate WidthDerived(width: int)
      reads this
    {
      isMobileDevice == (width < MobileBreakpoint) && isSidebarOpen == (width >= MobileBreakpoint)
    }

    /** `initialState`: the stored theme or "dark", and the sidebar open only on wide screens. */
    constructor (storage: LocalStorage, innerWidth: int)
      ensures this.storage == storage
      ensures theme == StoredOr(storage.GetItem("theme"), Dark)
      ensures WidthDerived(innerWidth) && isSidebarOpen != isMobileDevice
      ensures activeSidebarLink == None && !isLoading
    {
      this.storage := storage;
      theme := StoredOr(storage.GetItem("theme"), Dark);
      isSidebarOpen := innerWidth >= MobileBreakpoint;
      activeSidebarLink := None;
      isLoading := false;
      isMobileDevice := innerWidth < MobileBreakpoint;
    }

    method ToggleTheme()
      modifies this, storage
      ensures theme == ToggledTheme(old(theme))
      ensures storage.items == old(storage.items)["theme" := theme]
      ensures storage.GetItem("theme") == Some(theme)
      ensures isSidebarOpen == old(isSidebarOpen) && activeSidebarLink == old(activeSidebarLink)
      ensures isLoading == old(isLoading) && isMobileDevice == old(isMobileDevice)
    {
      theme := ToggledTheme(theme);
      storage.SetItem("theme", theme);
    }

    method ToggleSidebar()
      modifies this
      ensures isSidebarOpen == !old(isSidebarOpen)
      ensures theme == old(theme) && activeSidebarLink == old(activeSidebarLink)
      ensures isLoading == old(isLoading) && isMobileDevice == old(isMobileDevice)
    {
      isSidebarOpen := !isSidebarOpen;
    }

    method SetSidebarState(open: bool)
      modifies this
      ensures isSidebarOpen == open
      ensures theme == old(theme) && activeSidebarLink == old(activeSidebarLink)
      ensures isLoading == old(isLoading) && isMobileDevice == old(isMobileDevice)
    {
      isSidebarOpen := open;
    }

    method SetActiveSidebarLink(link: Option<string>)
      modifies this
      ensures activeSidebarLink == link
      ensures theme == old(theme) && isSidebarOpen == old(isSidebarOpen)
      ensures isLoading == old(isLoading) && isMobileDevice == old(isMobileDevice)
    {
      activeSidebarLink := link;
    }

    method SetIsLoading(loading: bool)
      modifies this
      ensures isLoading == loading
      ensures theme == old(theme) && isSidebarOpen == old(isSidebarOpen)
      ensures activeSidebarLink == old(activeSidebarLink) && isMobileDevice == old(isMobileDevice)
    {
      isLoading := loading;
    }

    method SetDeviceWidth(width: int)
      modifies this
      ensures WidthDerived(width) && isSidebarOpen != isMobileDevice
      ensures theme == old(theme) && activeSidebarLink == old(activeSidebarLink)
      ensures isLoading == old(isLoading)
    {
      isMobileDevice := width < MobileBreakpoint;
      isSidebarOpen := width >= MobileBreakpoint;
    }
  }

  /** Two toggles of the sidebar restore it, whatever else the state holds. */
  method ToggleSidebarTwice(ui: UiState)
    modifies ui
    ensures ui.isSidebarOpen == old(ui.isSidebarOpen)
    ensures ui.theme == old(ui.theme) && ui.isMobileDevice == old(ui.isMobileDevice)
  {
    ui.ToggleSidebar();
    ui.ToggleSidebar();
  }

  /** Two theme toggles restore a dark or light theme and leave it stored. */
  method ToggleThemeTwice(ui: UiState)
    requires ui.theme == Dark || ui.theme == Light
    modifies ui, ui.storage
    ensures ui.theme == old(ui.theme)
    ensures ui.storage.GetItem("theme") == Some(ui.theme)
  {
    ui.ToggleTheme();
    ui.ToggleTheme();
    ToggleThemeInvolution(old(ui.theme));
  }
}
