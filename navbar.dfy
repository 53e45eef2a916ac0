/**
 * The navigation bar: the signed-in user's name with its first letter capitalised,
 * the account menu, and signing out.
 */
module NavBar {
  import opened Common
  import opened Text
  import AuthContext

  /**
   * `PascalCase(str)`: `''` for a missing or empty string, otherwise the string with its
   * first character upper-cased. Every character after the first is kept, the first is
   * no longer a lower-case letter, and the string reads the same ignoring case.
   */
  function PascalCase(s: Option<string>): (r: string)
    ensures !Truthy(s) ==> r == []
    ensures Truthy(s) ==> |r| == |s.value| && r[1..] == s.value[1..] && !('a' <= r[0] <= 'z')
    ensures Truthy(s) ==> SameIgnoringCase(r, s.value)
  {
    if !Truthy(s) then []
    else
      var r := [UpperChar(s.value[0])] + s.value[1..];
      assert Lower(r) == Lower(s.value) by {
        assert forall i :: 0 <= i < |r| ==> LowerChar(r[i]) == LowerChar(s.value[i]);
      }
      r
  }

  /** Capitalising an already capitalised name changes nothing. */
  lemma PascalCaseIdempotent(s: Option<string>)
    ensures PascalCase(Some(PascalCase(s))) == PascalCase(s)
  {
    var r := PascalCase(s);
    if r != [] {
      assert UpperChar(r[0]) == r[0];
      assert r == [r[0]] + r[1..];
    }
  }

  /** `user?.nombre_usuario || ''`: the name shown beside the account icon, before capitalising. */
  function UserName(user: Option<AuthContext.User>): (name: string)
    ensures user.Some? && Truthy(user.value.nombre_usuario) ==> name == user.value.nombre_usuario.value
    ensures !(user.Some? && Truthy(user.value.nombre_usuario)) ==> name == []
  {
    if user.Some? then OrElse(user.value.nombre_usuario, []) else []
  }

  class NavigationBar {
    var menuOpen: bool
    var navigations: seq<Navigation>
    const auth: AuthContext.AuthProvider

    constructor (auth: AuthContext.AuthProvider)
      ensures this.auth == auth && !menuOpen && navigations == []
    {
      this.auth := auth;
      menuOpen := false;
      navigations := [];
    }

    /** The capitalised name of the signed-in user; empty when nobody is signed in or the name is missing. */
    function DisplayName(): (name: string)
      reads this, auth
      ensures auth.user.None? ==> name == []
      ensures |name| == |UserName(auth.user)|
    {
      PascalCase(Some(UserName(auth.user)))
    }

    /** `toggleMenu`: open the account menu if closed, close it if open. */
    method ToggleMenu()
      modifies this
      ensures menuOpen == !old(menuOpen) && navigations == old(navigations)
    {
      menuOpen := !menuOpen;
    }

    /** `handleLogout`: sign out, close the menu and go to the sign-in page. */
    method HandleLogout()
      modifies this, auth, auth.storage
      ensures auth.user == None && auth.storage.items == old(auth.storage.items) - {TokenKey}
      ensures !auth.IsAuthenticated() && DisplayName() == []
      ensures auth.loading == old(auth.loading)
      ensures !menuOpen && navigations == old(navigations) + [Navigation("/log-in", None)]
    {
      auth.Logout();
      menuOpen := false;
      navigations := navigations + [Navigation("/log-in", None)];
    }
  }
}
