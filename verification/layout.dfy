/**
 * The dashboard frame (`src/app/dashboard/layout.tsx`): configuration pages
 * hide the side menu and take the full width; every page has the top bar
 * and its content.
 */
module Layout {
  import opened Wrappers
  import opened Strings
  import Sidebar

  const ConfigPrefix: string := "/dashboard/configuracion"

  /** `pathname?.startsWith("/dashboard/configuracion")`; an absent path is not a configuration page. */
  function IsConfigPage(pathname: Option<string>): (config: bool)
    ensures pathname.None? ==> !config
    ensures pathname.Some? ==> (config <==> IsPrefix(ConfigPrefix, pathname.value))
  {
    pathname.Some? && IsPrefix(ConfigPrefix, pathname.value)
  }

  /** What the frame renders. */
  datatype Frame = Frame(showSidebar: bool, widthClass: string, showNavbar: bool, showChildren: bool)

  function Render(pathname: Option<string>): (f: Frame)
    ensures f.showSidebar <==> !IsConfigPage(pathname)
    ensures f.widthClass == "w-full" <==> !f.showSidebar
    ensures f.widthClass == "ml-64" <==> f.showSidebar
    ensures f.showNavbar && f.showChildren
  {
    var config := IsConfigPage(pathname);
    Frame(!config, if config then "w-full" else "ml-64", true, true)
  }

  /** Any page under the configuration path, or merely starting with its text, hides the menu. */
  lemma DeeperConfigPathsHideSidebar(rest: string)
    ensures !Render(Some(ConfigPrefix + rest)).showSidebar
  {
  }

  /** An absent path shows the menu at the narrow width. */
  lemma AbsentPathShowsSidebar()
    ensures Render(None) == Frame(true, "ml-64", true, true)
  {
  }

  /**
   * Whenever the menu is shown, its "Configuración" link is not the active
   * one: the only page it would highlight hides the menu.
   */
  lemma ConfigLinkNeverActiveWhenShown(pathname: string)
    requires Render(Some(pathname)).showSidebar
    ensures !Sidebar.IsActive(pathname, Sidebar.MenuItems[8].href.value)
    ensures Sidebar.MenuItems[8].title == "Configuración"
  {
  }
}
