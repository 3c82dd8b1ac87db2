/**
 * The side menu (`src/components/Sidebar.tsx`): the fixed menu entries,
 * the open/closed map of submenus, and the rules that highlight entries.
 */
module Sidebar {
  import opened Wrappers
  import opened Strings

  datatype SubItem = SubItem(title: string, href: string)

  /** A menu entry: a link, or a header over a submenu. Icons are left out. */
  datatype MenuItem = MenuItem(title: string, href: Option<string>, submenu: Option<seq<SubItem>>)

  /** `menuItems` */
  const MenuItems: seq<MenuItem> := [
    MenuItem("Inicio", Some("/dashboard"), None),
    MenuItem("Cotizaciones", Some("/dashboard/cotizaciones"), None),
    MenuItem("Clientes", Some("/dashboard/clientes"), None),
    MenuItem("Flota (Camiones)", Some("/dashboard/flota"), None),
    MenuItem("Rutas", Some("/dashboard/rutas"), None),
    MenuItem("Correos / Envíos", Some("/dashboard/correos"), None),
    MenuItem("Tarifario", Some("/dashboard/tarifario"), None),
    MenuItem("Reportes", Some("/dashboard/reportes"), None),
    MenuItem("Configuración", Some("/dashboard/configuracion"), None),
    MenuItem("Usuarios", Some("/dashboard/usuarios"), None)
  ]

  /**
   * The menu has ten plain links; titles are distinct (they are the render
   * keys) and so are the links.
   */
  lemma MenuItemsWellFormed()
    ensures |MenuItems| == 10
    ensures forall i :: 0 <= i < |MenuItems| ==> MenuItems[i].href.Some? && MenuItems[i].submenu.None?
    ensures forall i, j :: 0 <= i < j < |MenuItems| ==> MenuItems[i].title != MenuItems[j].title
    ensures forall i, j :: 0 <= i < j < |MenuItems| ==> MenuItems[i].href != MenuItems[j].href
  {
  }

  /** A missing entry in the open map reads as closed. */
  function IsOpen(open: map<string, bool>, title: string): bool {
    title in open && open[title]
  }

  /** `toggleSubmenu(title)` */
  function ToggleSubmenu(open: map<string, bool>, title: string): (open': map<string, bool>)
    ensures title in open' && open'[title] == !IsOpen(open, title)
    ensures forall t :: t != title ==> (t in open' <==> t in open)
    ensures forall t :: t != title && t in open ==> open'[t] == open[t]
  {
    open[title := !IsOpen(open, title)]
  }

  /** Toggling a title twice restores whether it is open, and leaves every other title alone. */
  lemma ToggleSubmenuTwice(open: map<string, bool>, title: string, other: string)
    ensures IsOpen(ToggleSubmenu(ToggleSubmenu(open, title), title), title) == IsOpen(open, title)
    ensures other != title ==>
      IsOpen(ToggleSubmenu(ToggleSubmenu(open, title), title), other) == IsOpen(open, other)
  {
  }

  /** `isActive(href)`: exact equality, no prefix matching. */
  function IsActive(pathname: string, href: string): (active: bool)
    ensures active <==> pathname == href
  {
    pathname == href
  }

  /** `isSubmenuActive(submenu)`: some item links to the current page. */
  function IsSubmenuActive(pathname: string, submenu: seq<SubItem>): (active: bool)
    ensures active <==> exists i :: 0 <= i < |submenu| && submenu[i].href == pathname
    decreases |submenu|
  {
    if |submenu| == 0 then false
    else if IsActive(pathname, submenu[0].href) then true
    else
      var rest := IsSubmenuActive(pathname, submenu[1..]);
      assert rest ==> exists i :: 0 <= i < |submenu| && submenu[i].href == pathname by {
        if rest {
          var i :| 0 <= i < |submenu[1..]| && submenu[1..][i].href == pathname;
          assert submenu[i + 1].href == pathname;
        }
      }
      assert (exists i :: 0 <= i < |submenu| && submenu[i].href == pathname) ==> rest by {
        if exists i :: 0 <= i < |submenu| && submenu[i].href == pathname {
          var i :| 0 <= i < |submenu| && submenu[i].href == pathname;
          assert i > 0 && submenu[1..][i - 1].href == pathname;
        }
      }
      rest
  }

  /** A submenu header is highlighted when one of its pages is current or it is open. */
  function HeaderHighlighted(pathname: string, item: MenuItem, open: map<string, bool>): (lit: bool)
    requires item.submenu.Some?
    ensures lit <==>
      (exists i :: 0 <= i < |item.submenu.value| && item.submenu.value[i].href == pathname)
      || IsOpen(open, item.title)
  {
    IsSubmenuActive(pathname, item.submenu.value) || IsOpen(open, item.title)
  }

  /** A parent path does not make its children's link active, nor the reverse. */
  lemma ActiveIsNotPrefixMatch(pathname: string, href: string)
    requires IsPrefix(href, pathname) && href != pathname
    ensures !IsActive(pathname, href) && !IsActive(href, pathname)
  {
  }

  /** At most one menu link is highlighted for any page. */
  lemma AtMostOneActiveLink(pathname: string)
    ensures forall i, j ::
      (0 <= i < |MenuItems| && 0 <= j < |MenuItems|
       && IsActive(pathname, MenuItems[i].href.value) && IsActive(pathname, MenuItems[j].href.value))
      ==> i == j
  {
  }
}
