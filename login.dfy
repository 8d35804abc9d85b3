/**
 * Signing in (screens/LoginScreen.tsx): both fields must be filled; on a
 * successful request the token, the user's name and the user's id are
 * written to the store, in that order, before moving to the dashboard.
 */
module Login {
  import opened Common
  import opened Numbers
  import opened Storage
  import opened Session

  datatype User = User(id: int, name: string)

  /** The body of a successful `POST auth/login`. */
  datatype LoginResponse = LoginResponse(accessToken: string, user: User)

  /** The body the screen posts to `auth/login`. */
  datatype Credentials = Credentials(email: string, password: string)

  const EmptyFieldsAlert := Alert("Erro", "Por favor, preencha todos os campos")
  const LoginFailedAlert := Alert("Erro", "Falha ao fazer login. Verifique suas credenciais.")

  /** The form may be submitted only when neither field is the empty string. */
  predicate FieldsFilled(email: string, password: string): (filled: bool)
    ensures filled <==> Truthy(Some(email)) && Truthy(Some(password))
  {
    email != "" && password != ""
  }

  /** The three awaited writes of a successful login, in order. */
  function LoginOps(response: LoginResponse): (ops: seq<StoreOp>)
    ensures |ops| == 3 && forall i :: 0 <= i < 3 ==> ops[i].SetItem?
    ensures ops[0].key == TokenKey && ops[1].key == NameKey && ops[2].key == IdKey
  {
    [SetItem(TokenKey, response.accessToken), SetItem(NameKey, response.user.name), SetItem(IdKey, IntString(response.user.id))]
  }

  /**
   * After a login whose writes all succeed, the store holds the token, the
   * name and the decimal id, the stored id reads back as the user's id, and
   * every other key (the role among them) is as it was.
   */
  lemma LoginStoresSession(items: Items, response: LoginResponse)
    ensures var r := RunOps(items, LoginOps(response), None);
      && Lookup(r, TokenKey) == Some(response.accessToken)
      && Lookup(r, NameKey) == Some(response.user.name)
      && Lookup(r, IdKey) == Some(IntString(response.user.id))
      && ToNumber(Lookup(r, IdKey)) == Finite(response.user.id)
      && forall k :: k != TokenKey && k != NameKey && k != IdKey ==> Lookup(r, k) == Lookup(items, k)
  {
    var ops := LoginOps(response);
    RunOpsLastWrite(items, ops, 0);
    RunOpsLastWrite(items, ops, 1);
    RunOpsLastWrite(items, ops, 2);
    ToNumberOfIntString(response.user.id);
    forall k | k != TokenKey && k != NameKey && k != IdKey
      ensures Lookup(RunOps(items, ops, None), k) == Lookup(items, k)
    {
      RunOpsFrame(items, ops, None, k);
    }
  }

  /**
   * A successful login leaves a session that `userInfo()` resolves by
   * decoding the new token; an empty token reads as no session at all.
   */
  lemma LoginThenUserInfo(items: Items, response: LoginResponse, decode: Decoder)
    ensures UserInfo(RunOps(items, LoginOps(response), None), decode)
      == if response.accessToken == "" then Returned(None)
         else if decode(response.accessToken).Some? then Returned(decode(response.accessToken))
         else Threw
  {
    LoginStoresSession(items, response);
  }

  class LoginScreen {
    var email: string
    var password: string
    var loading: bool
    /** Every value given to `setLoading`, in order. */
    ghost var loadingLog: seq<bool>

    constructor ()
      ensures email == "" && password == "" && !loading && loadingLog == []
    {
      email, password, loading := "", "", false;
      loadingLog := [];
    }

    /**
     * `handleLogin`. `response` is the outcome of the request (`None` when it
     * fails); `failAt` is the index of the store write that throws, if any.
     */
    method HandleLogin(store: Store, response: Option<LoginResponse>, failAt: Option<nat>)
      returns (request: Option<Credentials>, alert: Option<Alert>, navigate: Option<Route>)
      modifies this`loading, this`loadingLog, store
      ensures !FieldsFilled(old(email), old(password)) ==>
        && request.None? && alert == Some(EmptyFieldsAlert) && navigate.None?
        && store.items == old(store.items) && loading == old(loading) && loadingLog == old(loadingLog)
      ensures FieldsFilled(old(email), old(password)) ==>
        && request == Some(Credentials(email, password))
        && loadingLog == old(loadingLog) + [true, false] && !loading
        && store.items == (if response.Some? then RunOps(old(store.items), LoginOps(response.value), failAt) else old(store.items))
        && navigate == (if response.Some? && Completes(3, failAt) then Some(DashboardRoute) else None)
        && alert == (if navigate.Some? then None else Some(LoginFailedAlert))
    {
      if email == "" || password == "" {
        return None, Some(EmptyFieldsAlert), None;
      }
      loading := true;
      loadingLog := loadingLog + [true];
      request := Some(Credentials(email, password));
      navigate := None;
      alert := Some(LoginFailedAlert);
      if response.Some? {
        var r := response.value;
        ghost var before := store.items;
        ghost var ops := LoginOps(r);
        var ok := store.SetItem(TokenKey, r.accessToken, failAt == Some(0));
        if ok {
          ok := store.SetItem(NameKey, r.user.name, failAt == Some(1));
          if ok {
            ok := store.SetItem(IdKey, IntString(r.user.id), failAt == Some(2));
            if ok {
              navigate := Some(DashboardRoute);
              alert := None;
            }
          }
        }
        RunThreeOps(before, ops[0], ops[1], ops[2], failAt);
        assert ops == [ops[0], ops[1], ops[2]];
      }
      loading := false;
      loadingLog := loadingLog + [false];
    }
  }
}
