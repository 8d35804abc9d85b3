/**
 * Signing out and the permission label (screens/ProfileScreen.tsx). Logout
 * removes the token, the role and the name, in that order; the stored user
 * id is not removed.
 */
module Profile {
  import opened Common
  import opened Storage
  import opened Session

  const LogoutFailedAlert := Alert("Erro", "Não foi possível fazer logout.")
  const AdminLabel := "Administrador"
  const UserLabel := "Usuário"

  /** The three awaited removals of `handleLogout`, in order. */
  function LogoutOps(): (ops: seq<StoreOp>)
    ensures |ops| == 3 && forall i :: 0 <= i < 3 ==> ops[i].RemoveItem?
    ensures ops[0].key == TokenKey && ops[1].key == RoleKey && ops[2].key == NameKey
  {
    [RemoveItem(TokenKey), RemoveItem(RoleKey), RemoveItem(NameKey)]
  }

  /**
   * `handleLogout`. `failAt` is the index of the removal that throws, if any;
   * the removals before it stay done, and an alert replaces the navigation.
   */
  method HandleLogout(store: Store, failAt: Option<nat>) returns (alert: Option<Alert>, navigate: Option<Route>)
    modifies store
    ensures store.items == RunOps(old(store.items), LogoutOps(), failAt)
    ensures navigate == (if Completes(3, failAt) then Some(LoginRoute) else None)
    ensures alert == (if navigate.Some? then None else Some(LogoutFailedAlert))
  {
    ghost var before := store.items;
    navigate, alert := None, Some(LogoutFailedAlert);
    var ok := store.RemoveItem(TokenKey, failAt == Some(0));
    if ok {
      ok := store.RemoveItem(RoleKey, failAt == Some(1));
      if ok {
        ok := store.RemoveItem(NameKey, failAt == Some(2));
        if ok {
          navigate, alert := Some(LoginRoute), None;
        }
      }
    }
    RunThreeOps(before, LogoutOps()[0], LogoutOps()[1], LogoutOps()[2], failAt);
  }

  /**
   * A completed logout removes the token, the role and the name, keeps the
   * stored user id and every other key, and leaves no signed-in user.
   */
  lemma LogoutEndsSession(items: Items, decode: Decoder)
    ensures var r := RunOps(items, LogoutOps(), None);
      && TokenKey !in r && RoleKey !in r && NameKey !in r
      && Lookup(r, IdKey) == Lookup(items, IdKey)
      && (forall k :: k != TokenKey && k != RoleKey && k != NameKey ==> Lookup(r, k) == Lookup(items, k))
      && UserInfo(r, decode) == Returned(None)
  {
    RunOpsLastWrite(items, LogoutOps(), 0);
    RunOpsLastWrite(items, LogoutOps(), 1);
    RunOpsLastWrite(items, LogoutOps(), 2);
    forall k | k != TokenKey && k != RoleKey && k != NameKey
      ensures Lookup(RunOps(items, LogoutOps(), None), k) == Lookup(items, k)
    {
      RunOpsFrame(items, LogoutOps(), None, k);
    }
  }

  /** The permission line of the profile: administrators and everyone else. */
  function PermissionLabel(role: Option<string>): (text: string)
    ensures text == AdminLabel <==> role == Some("admin")
    ensures text == UserLabel <==> role != Some("admin")
  {
    if role == Some("admin") then AdminLabel else UserLabel
  }
}
