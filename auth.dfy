/**
 * The authentication context: an optional user record and the token kept
 * in local storage, updated by the login, signup, logout and profile
 * operations. Records are JavaScript objects: a map from property name to
 * value, where object spread `{...a, ...b}` is the map union `a + b`.
 */
module Auth {
  import opened Wrappers

  /** A property value of a user record; `Undefined` is a present key holding `undefined`. */
  datatype Value = Str(s: string) | Flag(b: bool) | Undefined

  type Record = map<string, Value>

  /** `{...base, ...updates}`: every key of `updates` wins, every other key of `base` is kept. */
  function Spread(base: Record, updates: Record): (r: Record)
    ensures r.Keys == base.Keys + updates.Keys
    ensures forall k :: k in updates ==> r[k] == updates[k]
    ensures forall k :: k in base && k !in updates ==> r[k] == base[k]
  {
    base + updates
  }

  /** Spreading the same updates a second time changes nothing. */
  lemma SpreadIdempotent(base: Record, updates: Record)
    ensures Spread(Spread(base, updates), updates) == Spread(base, updates)
  {
    var once := Spread(base, updates);
    assert Spread(once, updates).Keys == once.Keys;
  }

  /** Spreading `a` and then `b` is spreading `{...a, ...b}` at once. */
  lemma SpreadAssociative(base: Record, a: Record, b: Record)
    ensures Spread(Spread(base, a), b) == Spread(base, Spread(a, b))
  {
    var l := Spread(Spread(base, a), b);
    var r := Spread(base, Spread(a, b));
    assert l.Keys == r.Keys;
  }

  /**
   * `{ id: '1', ...user }` for the server's user record (`None` when the
   * reply has no user, whose spread adds nothing).
   */
  function WithDefaultId(server: Option<Record>): (r: Record)
    ensures "id" in r
    ensures server.Some? ==> r.Keys == server.value.Keys + {"id"}
    ensures server.None? ==> r == map["id" := Str("1")]
    ensures server.Some? && "id" in server.value ==> r["id"] == server.value["id"]
    ensures server.Some? && "id" !in server.value ==> r["id"] == Str("1")
    ensures server.Some? ==> forall k :: k in server.value ==> r[k] == server.value[k]
  {
    Spread(map["id" := Str("1")], server.GetOr(map[]))
  }

  /** The `token` property of a login reply: absent, `null`, or a string. */
  datatype ReplyToken = NoToken | NullToken | TokenText(text: string)

  /**
   * What `localStorage.setItem` keeps for the token the server sent: the
   * value converted to a string. A string token is kept as it is; the text
   * "undefined" or "null" is stored both for the missing or null token and
   * for a server token that happens to be that text.
   */
  function StoredToken(token: ReplyToken): (r: string)
    ensures token.TokenText? ==> r == token.text
    ensures r == "undefined" <==> token == NoToken || token == TokenText("undefined")
    ensures r == "null" <==> token == NullToken || token == TokenText("null")
  {
    match token
    case NoToken => "undefined"
    case NullToken => "null"
    case TokenText(text) => text
  }

  /**
   * Storage cannot tell a missing token from the text "undefined", nor a
   * null one from "null", while distinct string tokens stay distinct.
   */
  lemma StoredTokenConflates(a: string, b: string)
    ensures StoredToken(NoToken) == StoredToken(TokenText("undefined"))
    ensures StoredToken(NullToken) == StoredToken(TokenText("null"))
    ensures StoredToken(TokenText(a)) == StoredToken(TokenText(b)) ==> a == b
  {
  }

  /** The reply to an auth request; `Rejected` is any failure, which the caller sees as a thrown error. */
  datatype Reply = Rejected | Accepted(token: ReplyToken, user: Option<Record>)

  class AuthSession {
    var user: Option<Record>
    /** The `token` item of local storage. */
    var token: Option<string>

    /** A fresh context: no user, whatever token local storage already holds. */
    constructor(storedToken: Option<string>)
      ensures user == None && token == storedToken
      ensures Valid() && !IsAuthenticated()
    {
      user := None;
      token := storedToken;
    }

    /** Every user the context holds carries an `id`. */
    predicate Valid()
      reads this
    {
      user.Some? ==> "id" in user.value
    }

    /** `!!user`: in a valid context, authenticated means holding a user with an id. */
    predicate IsAuthenticated()
      reads this
      ensures Valid() ==> (IsAuthenticated() <==> user.Some? && "id" in user.value)
    {
      user.Some?
    }

    /** `login`: on success store the token and the user spread over the default id. */
    method Login(reply: Reply) returns (ok: bool)
      modifies this
      ensures ok <==> reply.Accepted?
      ensures ok ==> token == Some(StoredToken(reply.token)) && user == Some(WithDefaultId(reply.user))
      ensures !ok ==> token == old(token) && user == old(user)
      ensures ok ==> IsAuthenticated() && Valid()
      ensures !ok ==> IsAuthenticated() == old(IsAuthenticated()) && Valid() == old(Valid())
    {
      if reply.Rejected? {
        return false;
      }
      token := Some(StoredToken(reply.token));
      user := Some(WithDefaultId(reply.user));
      ok := true;
    }

    /** `googleLogin`: the same state change as `login`, from another endpoint. */
    method GoogleLogin(reply: Reply) returns (ok: bool)
      modifies this
      ensures ok <==> reply.Accepted?
      ensures ok ==> token == Some(StoredToken(reply.token)) && user == Some(WithDefaultId(reply.user))
      ensures !ok ==> token == old(token) && user == old(user)
      ensures ok ==> IsAuthenticated() && Valid()
      ensures !ok ==> IsAuthenticated() == old(IsAuthenticated()) && Valid() == old(Valid())
    {
      ok := Login(reply);
    }

    /** `signup`: on success set the user; no token is stored. */
    method Signup(reply: Reply) returns (ok: bool)
      modifies this`user
      ensures ok <==> reply.Accepted?
      ensures ok ==> user == Some(WithDefaultId(reply.user))
      ensures !ok ==> user == old(user)
      ensures ok ==> IsAuthenticated() && Valid()
      ensures !ok ==> IsAuthenticated() == old(IsAuthenticated()) && Valid() == old(Valid())
    {
      if reply.Rejected? {
        return false;
      }
      user := Some(WithDefaultId(reply.user));
      ok := true;
    }

    /** `logout`: drop the token and the user. */
    method Logout()
      modifies this
      ensures token == None && user == None
      ensures !IsAuthenticated() && Valid()
    {
      token := None;
      user := None;
    }

    /** `updateProfile`: spread the updates over the current user, if any. */
    method UpdateProfile(updates: Record)
      modifies this`user
      ensures old(user).None? ==> user == None
      ensures old(user).Some? ==> user == Some(Spread(old(user).value, updates))
      ensures IsAuthenticated() == old(IsAuthenticated()) && (old(Valid()) ==> Valid())
    {
      if user.Some? {
        user := Some(Spread(user.value, updates));
      }
    }

    /** `getProfile`: on success replace the user; a failure is swallowed and changes nothing. */
    method GetProfile(reply: Reply)
      modifies this`user
      ensures reply.Accepted? ==> user == Some(WithDefaultId(reply.user))
      ensures reply.Rejected? ==> user == old(user)
      ensures reply.Accepted? ==> IsAuthenticated() && Valid()
      ensures reply.Rejected? ==> IsAuthenticated() == old(IsAuthenticated()) && Valid() == old(Valid())
    {
      if reply.Accepted? {
        user := Some(WithDefaultId(reply.user));
      }
    }
  }

  /** After any successful login the session is authenticated and its id is the server's or '1'. */
  lemma LoginAuthenticates(reply: Reply)
    requires reply.Accepted?
    ensures "id" in WithDefaultId(reply.user)
    ensures WithDefaultId(reply.user)["id"] ==
      if reply.user.Some? && "id" in reply.user.value then reply.user.value["id"] else Str("1")
  {
  }
}
