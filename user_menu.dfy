/** The user-menu hook of src/hooks/useUserMenu.js: the `showUserMenu` flag and the logout
    handler, which goes through authService.logout. */
module UserMenu {
  import opened Wrappers
  import opened ErrorHandler
  import opened AuthContext

  /** The `navigation` argument, when given: whether it has a `replace` function. */
  datatype Navigation = Navigation(hasReplace: bool)

  /** The updater `prev => !prev`: the flag always flips. */
  function Toggle(prev: bool): (next: bool)
    ensures next != prev
  {
    !prev
  }

  class UserMenu {
    var showUserMenu: bool
    const navigation: Option<Navigation>
    const handler: Handler
    const store: TokenStore

    ghost predicate Valid()
      reads this, handler
    {
      handler.customMessages == map[] && handler.Valid()
    }

    constructor (navigation: Option<Navigation>, store: TokenStore)
      ensures !showUserMenu
      ensures this.navigation == navigation && this.store == store && fresh(handler)
      ensures handler.State() == HookState(None, false)
      ensures Valid()
    {
      showUserMenu := false;
      this.navigation := navigation;
      handler := new Handler(map[]);
      this.store := store;
    }

    /** handleUserPress. */
    method HandleUserPress()
      modifies this
      ensures showUserMenu == Toggle(old(showUserMenu))
    {
      showUserMenu := Toggle(showUserMenu);
    }

    /** handleCloseMenu: closed whatever it was, so repeating it changes nothing. */
    method HandleCloseMenu()
      modifies this
      ensures !showUserMenu
    {
      showUserMenu := false;
    }

    /** setShowUserMenu, which the screens also receive. */
    method SetShowUserMenu(v: bool)
      modifies this
      ensures showUserMenu == v
    {
      showUserMenu := v;
    }

    /** handleLogout. On success the menu closes and navigation.replace('Login') is called
        (`replacedWith`) only if a navigation with `replace` was given. On failure the
        service's fault is recorded under 'Logout', the flag stays and nothing is thrown. */
    method HandleLogout(removeFailure: Option<Fault>, timestamp: string)
      returns (replacedWith: Option<string>)
      requires Valid()
      modifies this, handler, store
      ensures Valid()
      ensures removeFailure.None? ==>
        && !showUserMenu && store.token == None && handler.State() == old(handler.State())
        && replacedWith == if navigation.Some? && navigation.value.hasReplace then Some("Login") else None
      ensures removeFailure.Some? ==>
        && showUserMenu == old(showUserMenu) && store.token == old(store.token)
        && handler.State() == HookState(Some(handler.Describe(LogoutFault, "Logout", timestamp)), old(handler.isLoading))
        && replacedWith == None
    {
      var thrown := ServiceLogout(store, removeFailure);
      if thrown.None? {
        showUserMenu := false;
        replacedWith := if navigation.Some? && navigation.value.hasReplace then Some("Login") else None;
      } else {
        var _ := handler.HandleError(thrown.value, "Logout", timestamp);
        replacedWith := None;
      }
    }
  }

  /** The recorded logout failure reads 'Error during logout', of type UNKNOWN. */
  lemma LogoutFailureRecord(h: Handler, timestamp: string)
    requires h.customMessages == map[]
    ensures var info := h.Describe(LogoutFault, "Logout", timestamp);
      info.message == "Error during logout" && info.errorType == UNKNOWN
  {
  }

  /** Pressing the user icon twice leaves the menu as it was, and touches nothing else. */
  method PressTwice(m: UserMenu)
    modifies m
    ensures m.showUserMenu == old(m.showUserMenu)
  {
    m.HandleUserPress();
    m.HandleUserPress();
  }
}
