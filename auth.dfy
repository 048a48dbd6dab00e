/**
 * The auth service: the bearer token kept under the storage key "token" in either
 * `localStorage` (the durable slot) or `sessionStorage` (the session slot), and the
 * error rule of the login request.
 */
module Auth {
  import opened Wrappers
  import opened JsValues

  /** The value `getItem("token")` returns from each storage, None standing for null. */
  datatype Slots = Slots(durable: Option<string>, session: Option<string>)

  /** `saveAuth(token, remember)`: write the token into one slot, chosen by `remember`. */
  function Stored(s: Slots, token: string, remember: bool): (r: Slots)
    ensures remember ==> r.durable == Some(token) && r.session == s.session
    ensures !remember ==> r.session == Some(token) && r.durable == s.durable
  {
    if remember then s.(durable := Some(token)) else s.(session := Some(token))
  }

  /** `getToken()`: durable first, falling back to the session slot through `||`. */
  function TokenIn(s: Slots): (r: Option<string>)
    ensures Truthy(s.durable) ==> r == s.durable
    ensures !Truthy(s.durable) ==> r == s.session
  {
    Or(s.durable, s.session)
  }

  /** `logout()`: remove the token from both storages. */
  function Emptied(s: Slots): (r: Slots)
    ensures r.durable.None? && r.session.None?
    ensures TokenIn(r).None?
  {
    s.(durable := None).(session := None)
  }

  /** Logging out twice leaves the storages as logging out once does. */
  lemma LogoutIdempotent(s: Slots)
    ensures Emptied(Emptied(s)) == Emptied(s)
  {
  }

  /** Whatever was saved before, after a logout no token is read back. */
  lemma LogoutForgetsSaves(s: Slots, token: string, remember: bool)
    ensures TokenIn(Emptied(Stored(s, token, remember))) == None
  {
  }

  /** A session-only save does not win over a non-empty durable token already present. */
  lemma SessionSaveIsShadowed(s: Slots, token: string)
    requires Truthy(s.durable)
    ensures TokenIn(Stored(s, token, false)) == s.durable
  {
  }

  /** A session-only save is what `getToken` returns when the durable slot is null or empty. */
  lemma SessionSaveVisible(s: Slots, token: string)
    requires !Truthy(s.durable)
    ensures TokenIn(Stored(s, token, false)) == Some(token)
  {
  }

  /** A remembered non-empty token is what `getToken` returns, whatever the session slot holds. */
  lemma RememberedSaveVisible(s: Slots, token: string)
    requires token != ""
    ensures TokenIn(Stored(s, token, true)) == Some(token)
  {
  }

  /** An empty durable value falls through to the session slot, as `"" || x` does. */
  lemma EmptyDurableFallsThrough(s: Slots)
    requires s.durable == Some("")
    ensures TokenIn(s) == s.session
  {
  }

  /**
   * `PrivateRoute`: the protected routes render when `getToken()` is truthy, which is exactly
   * when one of the two slots holds a non-empty token.
   */
  predicate Admits(s: Slots): (r: bool)
    ensures r <==> Truthy(s.durable) || Truthy(s.session)
  {
    Truthy(TokenIn(s))
  }

  /** After a logout the protected routes redirect to the login page. */
  lemma LogoutRevokesAccess(s: Slots)
    ensures !Admits(Emptied(s))
  {
  }

  /** The message `login` rejects with when the response is not ok. */
  const InvalidCredentials := "Invalid credentials"

  /** A fetch response: its `ok` flag and the JSON body it would yield. */
  datatype Response<B> = Response(ok: bool, body: B)

  /** `login`: a non-ok response fails with "Invalid credentials", an ok one yields its body. */
  function Login<B>(res: Response<B>): (r: Result<B, string>)
    ensures r.Err? <==> !res.ok
    ensures r.Err? ==> r.error == InvalidCredentials
    ensures r.Ok? ==> r.value == res.body
  {
    if !res.ok then Err(InvalidCredentials) else Ok(res.body)
  }

  /** The two storages of one browser tab, as far as the key "token" goes. */
  class TokenStore {
    var durable: Option<string>
    var session: Option<string>

    function Contents(): Slots
      reads this
    {
      Slots(durable, session)
    }

    /** The storages start with whatever an earlier visit left in them. */
    constructor (initial: Slots)
      ensures Contents() == initial
    {
      durable := initial.durable;
      session := initial.session;
    }

    method SaveAuth(token: string, remember: bool)
      modifies this
      ensures Contents() == Stored(old(Contents()), token, remember)
    {
      if remember {
        durable := Some(token);
      } else {
        session := Some(token);
      }
    }

    method GetToken() returns (token: Option<string>)
      ensures token == TokenIn(Contents())
    {
      token := Or(durable, session);
    }

    /** `localStorage.setItem("token", token)`: the durable slot only. */
    method SetDurable(token: string)
      modifies this
      ensures durable == Some(token) && session == old(session)
    {
      durable := Some(token);
    }

    method Logout()
      modifies this
      ensures Contents() == Emptied(old(Contents()))
    {
      durable := None;
      session := None;
    }
  }
}
