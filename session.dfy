/**
 * Reading the signed-in user from the store (utils/user.ts): the stored
 * token is decoded on every read, with no signature or expiry check.
 */
module Session {
  import opened Common
  import opened Storage

  /** The claims of a decoded token payload; any claim may be missing. */
  datatype Claims = Claims(
    id: Option<int>,
    name: Option<string>,
    role: Option<string>,
    email: Option<string>,
    avatarUrl: Option<string>)

  /**
   * The token decoder (`jwtDecode`), taken as a parameter: `None` means the
   * token is malformed and the decoder throws.
   */
  type Decoder = string -> Option<Claims>

  /**
   * `userInfo()`: `null` when no token is stored (or it is the empty string),
   * otherwise the decoded claims; a decoding failure is not caught and
   * reaches the caller as a throw.
   */
  function UserInfo(items: Items, decode: Decoder): (r: Outcome<Option<Claims>>)
    ensures r == Returned(None) <==> !Truthy(Lookup(items, TokenKey))
    ensures r.Threw? <==> Truthy(Lookup(items, TokenKey)) && decode(items[TokenKey]).None?
    ensures r.Returned? && r.value.Some? ==> r.value == decode(items[TokenKey])
  {
    var token := Lookup(items, TokenKey);
    if Truthy(token) then
      match decode(token.value)
      case Some(claims) => Returned(Some(claims))
      case None => Threw
    else Returned(None)
  }

  /**
   * `getUserName()`: the `name` claim of `userInfo()`. Reading `.name` of a
   * `null` user throws, so without a stored token the call throws too.
   */
  function GetUserName(items: Items, decode: Decoder): (r: Outcome<Option<string>>)
    ensures r.Returned? <==> Truthy(Lookup(items, TokenKey)) && decode(items[TokenKey]).Some?
    ensures r.Returned? ==> r.value == decode(items[TokenKey]).value.name
  {
    match UserInfo(items, decode)
    case Returned(Some(claims)) => Returned(claims.name)
    case Returned(None) => Threw
    case Threw => Threw
  }

  const Morning := "Bom dia"
  const Afternoon := "Boa tarde"
  const Evening := "Boa noite"

  /** `selectGreetings(hour)`: the greeting shown for the hour of the day. */
  function SelectGreetings(hour: int): (g: string)
    ensures g == Morning <==> 0 <= hour < 12
    ensures g == Afternoon <==> 12 <= hour < 18
    ensures g == Evening <==> hour < 0 || 18 <= hour
  {
    if hour >= 0 && hour < 12 then Morning
    else if hour >= 12 && hour < 18 then Afternoon
    else Evening
  }
}
