/** The Discord OAuth handshake and the two middlewares, identical in both server
    files: `/auth/discord` issues a state token, `/auth/discord/callback` checks it
    and binds the Discord profile to the session, `requireAuth` and `requireAdmin`
    gate routes. */
module Auth {
  import opened Common
  import Helpers

  /** The identity stored in `req.session.user`. The profile body is not checked,
      so `id` is undefined when Discord answered without one. */
  datatype User = User(id: Option<string>, username: string, avatar: Option<string>)

  /** The two fields of `req.session` the server reads and writes. */
  class Session {
    var oauthState: Option<string>
    var user: Option<User>

    constructor ()
      ensures oauthState == None && user == None
    {
      oauthState := None;
      user := None;
    }
  }

  /** Length of the state token drawn by `/auth/discord`. */
  const STATE_LENGTH: nat := 32

  /** `adminList.includes(userId)`; an undefined id is in no list of strings. */
  function IsAdmin(userId: Option<string>, admins: seq<string>): (b: bool)
    ensures b <==> exists i :: 0 <= i < |admins| && Some(admins[i]) == userId
    ensures userId.None? ==> !b
  {
    userId.Some? && userId.value in admins
  }

  /** `/auth/discord`: draws a fresh state token and stores it in the session. */
  method BeginLogin(session: Session, randoms: seq<real>) returns (state: string)
    requires |randoms| >= STATE_LENGTH && Helpers.IsDraws(randoms)
    modifies session
    ensures |state| == STATE_LENGTH
    ensures forall i :: 0 <= i < |state| ==> state[i] in Helpers.ALPHABET
    ensures session.oauthState == Some(state) && session.user == old(session.user)
  {
    state := Helpers.CryptoRandomString(STATE_LENGTH, randoms);
    session.oauthState := Some(state);
  }

  /** The guard of the callback: code and state are both present and non-empty,
      and the state is exactly the one stored in the session. */
  function StateAccepted(code: Option<string>, state: Option<string>, expected: Option<string>): (b: bool)
    ensures b ==> Truthy(expected) && state == expected
    ensures expected.None? || expected == Some("") ==> !b
    ensures !Truthy(code) ==> !b
  {
    Truthy(code) && Truthy(state) && state == expected
  }

  /** What the token endpoint gave back: the call (or its JSON) threw, the response
      was not ok, or an ok response with `token_type` and `access_token`. */
  datatype TokenReply = TokenThrew | TokenRejected | TokenGranted(tokenType: Option<string>, accessToken: Option<string>)

  /** What `/users/@me` gave back: the call (or its JSON) threw, or a body. */
  datatype ProfileReply =
    | ProfileThrew
    | Profile(id: Option<string>, username: Option<string>, discriminator: Option<string>, avatar: Option<string>)

  /** An outbound request the callback makes to Discord. */
  datatype Outbound = TokenExchange(code: string) | ProfileFetch(authorization: string)

  datatype CallbackResponse = Redirect(location: string) | Failed(status: int, message: string)

  /** A JavaScript template substitution `${v}` of a possibly undefined string. */
  function Template(v: Option<string>): string {
    v.GetOr("undefined")
  }

  function Authorization(tokenType: Option<string>, accessToken: Option<string>): string {
    Template(tokenType) + " " + Template(accessToken)
  }

  /** The session user built from a profile: id and avatar as given, and the username
      `name#discriminator`, with "undefined" for a missing part. */
  function UserOf(profile: ProfileReply): (u: User)
    requires profile.Profile?
    ensures u.id == profile.id && u.avatar == profile.avatar
    ensures var name := Template(profile.username);
            |u.username| == |name| + 1 + |Template(profile.discriminator)|
            && u.username[..|name|] == name && u.username[|name|] == '#'
            && u.username[|name| + 1..] == Template(profile.discriminator)
  {
    User(profile.id, Template(profile.username) + "#" + Template(profile.discriminator), profile.avatar)
  }

  /** `/auth/discord/callback`. The replies of Discord's two endpoints are parameters;
      `calls` lists the requests made to them, in order. */
  method LoginCallback(session: Session, code: Option<string>, state: Option<string>,
                       token: TokenReply, profile: ProfileReply)
    returns (res: CallbackResponse, calls: seq<Outbound>)
    modifies session
    ensures session.oauthState == old(session.oauthState)
    ensures res == Failed(400, "Invalid OAuth state") <==> !StateAccepted(code, state, old(session.oauthState))
    ensures !StateAccepted(code, state, old(session.oauthState)) ==> calls == []
    ensures StateAccepted(code, state, old(session.oauthState)) ==>
              calls == if token.TokenGranted?
                       then [TokenExchange(code.value), ProfileFetch(Authorization(token.tokenType, token.accessToken))]
                       else [TokenExchange(code.value)]
    ensures StateAccepted(code, state, old(session.oauthState)) && token.TokenRejected? ==>
              res == Failed(500, "OAuth token exchange failed")
    ensures StateAccepted(code, state, old(session.oauthState)) && (token.TokenThrew? || (token.TokenGranted? && profile.ProfileThrew?)) ==>
              res == Failed(500, "OAuth callback error")
    ensures res.Redirect? <==> StateAccepted(code, state, old(session.oauthState)) && token.TokenGranted? && profile.Profile?
    ensures res.Redirect? ==> res.location == "/#admin" && session.user == Some(UserOf(profile))
    ensures !res.Redirect? ==> session.user == old(session.user)
  {
    if !Truthy(code) || !Truthy(state) || state != session.oauthState {
      return Failed(400, "Invalid OAuth state"), [];
    }
    calls := [TokenExchange(code.value)];
    match token {
      case TokenThrew =>
        return Failed(500, "OAuth callback error"), calls;
      case TokenRejected =>
        return Failed(500, "OAuth token exchange failed"), calls;
      case TokenGranted(tokenType, accessToken) =>
        calls := calls + [ProfileFetch(Authorization(tokenType, accessToken))];
        if profile.ProfileThrew? {
          return Failed(500, "OAuth callback error"), calls;
        }
        session.user := Some(UserOf(profile));
        res := Redirect("/#admin");
    }
  }

  /** `/auth/logout`: the session is destroyed, so neither field survives. */
  method Logout(session: Session) returns (r: Reply<()>)
    modifies session
    ensures session.user == None && session.oauthState == None
    ensures r == Ok(())
  {
    session.user := None;
    session.oauthState := None;
    r := Ok(());
  }

  /** `requireAuth`: passes exactly when the session holds a user. */
  function RequireAuth(session: Session): (g: Gate)
    reads session
    ensures g.Pass? <==> session.user.Some?
    ensures g.Deny? ==> g.status == 401 && g.error == "Not authenticated"
  {
    if session.user.None? then Deny(401, "Not authenticated") else Pass
  }

  /** The decision `requireAdmin` takes once it has read the admin list: 401 without a
      user, 403 for a user who is not listed, and a pass for a listed one. */
  function AdminGate(user: Option<User>, admins: seq<string>): (g: Gate)
    ensures g.Pass? <==> user.Some? && IsAdmin(user.value.id, admins)
    ensures g.Deny? ==> (g.status == 401 <==> user.None?) && (g.status == 403 <==> user.Some?)
    ensures g.Deny? ==> g.error == (if g.status == 401 then "Not authenticated" else "Not an admin")
  {
    if user.None? then Deny(401, "Not authenticated")
    else if !IsAdmin(user.value.id, admins) then Deny(403, "Not an admin")
    else Pass
  }
}
