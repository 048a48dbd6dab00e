/**
 * The sign-up page: the register payload, the register request's error message, and the
 * `loading`/`error` state around a submit.
 */
module Signup {
  import opened Wrappers
  import opened JsValues
  import Auth

  /** `householdAction`: `"create" | "join"`. */
  datatype HouseholdAction = Create | Join

  function ActionName(a: HouseholdAction): string
  {
    match a
    case Create => "create"
    case Join => "join"
  }

  /** The JSON object posted to "/register", property name to value. */
  type RegisterPayload = map<string, string>

  const CommonKeys: set<string> := {"name", "email", "password", "household_action"}

  /** `handleSubmit`'s payload: the four common properties plus one household property. */
  function BuildPayload(name: string, email: string, password: string, action: HouseholdAction,
                        householdName: string, householdCode: string): (p: RegisterPayload)
    ensures CommonKeys <= p.Keys
    ensures p["name"] == name && p["email"] == email && p["password"] == password
    ensures p["household_action"] == ActionName(action)
    ensures action == Create ==>
      p.Keys == CommonKeys + {"household_name"} && p["household_name"] == householdName
    ensures action == Join ==>
      p.Keys == CommonKeys + {"household_code"} && p["household_code"] == householdCode
  {
    var common := map["name" := name, "email" := email, "password" := password,
                      "household_action" := ActionName(action)];
    if action == Create then common["household_name" := householdName]
    else common["household_code" := householdCode]
  }

  /** Exactly one of the two household properties is sent. */
  lemma OneHouseholdKey(name: string, email: string, password: string,
                        action: HouseholdAction, householdName: string, householdCode: string)
    ensures var p := BuildPayload(name, email, password, action, householdName, householdCode);
            ("household_name" in p) != ("household_code" in p)
  {
  }

  const RegistrationFailed := "Registration failed"

  /** The parsed body of a rejected register response; None when it was not JSON. */
  datatype ErrorBody = ErrorBody(message: Option<string>)

  /** A register response: ok with the token, or not ok with its body. */
  datatype RegisterResponse = Registered(token: string) | Rejected(body: Option<ErrorBody>)

  /** `errorData?.message || "Registration failed"`. */
  function RegisterErrorMessage(body: Option<ErrorBody>): (m: string)
    ensures body.Some? && Truthy(body.value.message) ==> m == body.value.message.value
    ensures !(body.Some? && Truthy(body.value.message)) ==> m == RegistrationFailed
    ensures m != ""
  {
    OrElse(if body.Some? then body.value.message else None, RegistrationFailed)
  }

  /** `registerRequest`: the token on success, the error message otherwise. */
  function RegisterRequest(res: RegisterResponse): (r: Result<string, string>)
    ensures r.Ok? <==> res.Registered?
    ensures res.Registered? ==> r.value == res.token
    ensures res.Rejected? ==> r.error == RegisterErrorMessage(res.body)
  {
    match res
    case Registered(token) => Ok(token)
    case Rejected(body) => Err(RegisterErrorMessage(body))
  }

  /** The page's own `saveAuth(token)`: `localStorage.setItem("token", token)`. */
  function SavedToken(s: Auth.Slots, token: string): (r: Auth.Slots)
    ensures r.durable == Some(token) && r.session == s.session
  {
    s.(durable := Some(token))
  }

  /** The page's `saveAuth` is the auth service's `saveAuth` with `remember` set. */
  lemma SavedTokenIsRemembered(s: Auth.Slots, token: string)
    ensures SavedToken(s, token) == Auth.Stored(s, token, true)
  {
  }

  /** After signing up with a non-empty token, the protected routes are open. */
  lemma SignupGrantsAccess(s: Auth.Slots, token: string)
    requires token != ""
    ensures Auth.Admits(SavedToken(s, token))
  {
  }

  /** The submit button's text. */
  function ButtonText(loading: bool): (text: string)
    ensures loading ==> text == "Signing up..."
    ensures !loading ==> text == "Sign Up"
  {
    if loading then "Signing up..." else "Sign Up"
  }

  class Page {
    var name: string
    var email: string
    var password: string
    var householdAction: HouseholdAction
    var householdName: string
    var householdCode: string
    var error: Option<string>
    var loading: bool

    /** The initial `useState` values. */
    constructor ()
      ensures name == "" && email == "" && password == ""
      ensures householdAction == Create && householdName == "" && householdCode == ""
      ensures error.None? && !loading
    {
      name, email, password := "", "", "";
      householdAction := Create;
      householdName, householdCode := "", "";
      error := None;
      loading := false;
    }

    /** The start of `handleSubmit`: clear the error, set `loading`, build the payload. */
    method BeginSubmit() returns (payload: RegisterPayload)
      modifies this
      ensures error.None? && loading
      ensures payload == BuildPayload(name, email, password, householdAction, householdName, householdCode)
      ensures name == old(name) && email == old(email) && password == old(password)
      ensures householdAction == old(householdAction)
      ensures householdName == old(householdName) && householdCode == old(householdCode)
    {
      error := None;
      loading := true;
      payload := BuildPayload(name, email, password, householdAction, householdName, householdCode);
    }

    /**
     * The rest: on success save the token durably and go to "/"; on a thrown error show its
     * message and save nothing; in both cases clear `loading`.
     */
    method FinishSubmit(outcome: Result<string, string>, store: Auth.TokenStore) returns (navigatedHome: bool)
      modifies this, store
      ensures !loading
      ensures navigatedHome <==> outcome.Ok?
      ensures outcome.Ok? ==> store.Contents() == SavedToken(old(store.Contents()), outcome.value) && error == old(error)
      ensures outcome.Err? ==> store.Contents() == old(store.Contents()) && error == Some(outcome.error)
      ensures name == old(name) && email == old(email) && password == old(password)
      ensures householdAction == old(householdAction)
      ensures householdName == old(householdName) && householdCode == old(householdCode)
    {
      match outcome {
        case Ok(token) =>
          store.SetDurable(token);
          navigatedHome := true;
        case Err(message) =>
          error := Some(message);
          navigatedHome := false;
      }
      loading := false;
    }
  }

  /** A whole submit against a register response: flags, error and storage afterwards. */
  method Submit(page: Page, res: RegisterResponse, store: Auth.TokenStore)
    returns (payload: RegisterPayload, navigatedHome: bool)
    modifies page, store
    ensures !page.loading
    ensures payload == BuildPayload(old(page.name), old(page.email), old(page.password), old(page.householdAction),
                                    old(page.householdName), old(page.householdCode))
    ensures page.name == old(page.name) && page.email == old(page.email) && page.password == old(page.password)
    ensures page.householdAction == old(page.householdAction)
    ensures page.householdName == old(page.householdName) && page.householdCode == old(page.householdCode)
    ensures res.Registered? ==>
      navigatedHome && page.error.None? && store.Contents() == Auth.Stored(old(store.Contents()), res.token, true)
    ensures res.Rejected? ==>
      !navigatedHome && page.error == Some(RegisterErrorMessage(res.body)) && store.Contents() == old(store.Contents())
  {
    payload := page.BeginSubmit();
    navigatedHome := page.FinishSubmit(RegisterRequest(res), store);
    SavedTokenIsRemembered(old(store.Contents()), if res.Registered? then res.token else "");
  }
}
