/**
 * The login page (`src/pages/Login.tsx`): where a signed-in user is sent, what a login attempt
 * does to the session, the guest cart and the cart query, and which error it shows. The sign-in
 * sequence and the destination rule are shared with the sign-up page.
 */
module Login {
  import opened Wrappers
  import opened Text
  import opened Domain
  import opened GuestCart
  import opened CartQueries
  import opened Effects
  import opened Auth

  /** `location.state`: `returnUrl` and `from`, "" when absent. */
  datatype LocationState = LocationState(returnUrl: string, from: string)

  /** The body of a login, sign-up, OTP or resend answer; absent strings are "". */
  datatype AuthResponse = AuthResponse(success: bool, token: string, user: Option<User>,
                                       error: string, message: string, otp: string)

  /** `returnUrl || (from === "cart" ? "/cart" : "/")`, where `returnUrl` is the `return` query
      parameter or else the state's `returnUrl`. */
  function Destination(returnParam: string, state: LocationState): (d: string)
    ensures d != ""
    ensures returnParam != "" ==> d == returnParam
    ensures returnParam == "" && state.returnUrl != "" ==> d == state.returnUrl
    ensures returnParam == "" && state.returnUrl == "" ==> (d == "/cart" <==> state.from == "cart")
  {
    Or(Or(returnParam, state.returnUrl), if state.from == "cart" then "/cart" else "/")
  }

  /** The redirect of an already signed-in visitor, made only while no attempt is running. */
  function AutoRedirect(isAuthenticated: bool, loading: bool, returnParam: string, state: LocationState)
    : Option<string>
  {
    if isAuthenticated && !loading then Some(Destination(returnParam, state)) else None
  }

  /** An answer that signs the user in: success, a token and a user. */
  predicate SignsIn(r: AuthResponse) {
    r.success && r.token != "" && r.user.Some?
  }

  /** The error of an answer that does not sign in. */
  function RefusedMessage(r: AuthResponse): string {
    Or(r.error, Or(r.message, "Login failed"))
  }

  /** The error of a login that throws: from the response body when there is one, else an
      `Error`'s message, else a default. */
  function ThrownMessage(e: Thrown): string {
    var fallback := "Login failed. Please try again.";
    match e.response
    case Some(body) => Or(body.error, Or(body.message, fallback))
    case None => if e.isError then e.message else fallback
  }

  /** What the background sync leaves in the cart query's log: with guest lines, an invalidation
      only when the sync succeeds; without any, one invalidation to load the user's cart. */
  function SyncInvalidations(hadGuestLines: bool, syncAnswer: Result<CartResponse, Thrown>): seq<CacheEvent> {
    if !hadGuestLines || syncAnswer.Success? then [Invalidate] else []
  }

  /** The sign-in sequence: set the session, navigate, then sync a non-empty guest cart. The
      caller reports the sync; `synced` says how it went (`None` when there was nothing to send). */
  method SignInAndSync(auth: AuthStore, guest: GuestCartStore, cache: QueryCache, r: AuthResponse,
                       destination: string, catalog: Catalog, syncAnswer: Result<CartResponse, Thrown>)
    returns (effects: seq<Effect>, synced: Option<bool>)
    requires SignsIn(r)
    modifies auth, guest, cache
    ensures auth.user == r.user && auth.token == Some(r.token) && auth.isAuthenticated && auth.Valid()
    ensures auth.storedToken == Some(r.token) && auth.storedUser == r.user
    ensures synced.None? <==> |old(guest.Lines())| == 0
    ensures synced.Some? ==> synced.value == syncAnswer.Success?
    ensures effects == [AuthSet(r.token), Navigate(destination)]
      + (if |old(guest.Lines())| > 0 then [SyncSent(SyncItems(old(guest.Lines()), catalog))] else [])
    ensures guest.stored == (if |old(guest.Lines())| > 0 && syncAnswer.Success? then None else old(guest.stored))
    ensures cache.snapshot == old(cache.snapshot)
    ensures cache.events == old(cache.events) + SyncInvalidations(|old(guest.Lines())| > 0, syncAnswer)
  {
    auth.SetAuth(r.user.value, r.token);
    effects := [AuthSet(r.token), Navigate(destination)];
    var guestCart := guest.GetGuestCart();
    if |guestCart| > 0 {
      var sent, response := guest.SyncGuestCart(catalog, syncAnswer);
      effects := effects + [SyncSent(sent)];
      if response.Success? {
        cache.Record(Invalidate);
        synced := Some(true);
      } else {
        synced := Some(false);
      }
    } else {
      cache.Record(Invalidate);
      synced := None;
    }
  }

  class LoginView {
    var error: string
    var loading: bool
    var effects: seq<Effect>
    const auth: AuthStore
    const guest: GuestCartStore
    const cache: QueryCache

    constructor (auth: AuthStore, guest: GuestCartStore, cache: QueryCache)
      ensures error == "" && !loading && effects == []
      ensures this.auth == auth && this.guest == guest && this.cache == cache
    {
      error := "";
      loading := false;
      effects := [];
      this.auth := auth;
      this.guest := guest;
      this.cache := cache;
    }

    /** `onSubmit`. A failed sync does not undo the sign-in and shows nothing. */
    method OnSubmit(returnParam: string, state: LocationState, answer: Result<AuthResponse, Thrown>,
                    catalog: Catalog, syncAnswer: Result<CartResponse, Thrown>)
      modifies this, auth, guest, cache
      ensures !loading
      ensures answer.Success? && SignsIn(answer.value) ==>
        error == ""
        && auth.user == answer.value.user && auth.token == Some(answer.value.token) && auth.isAuthenticated
        && auth.Valid() && auth.storedToken == Some(answer.value.token)
        && effects == old(effects) + [AuthSet(answer.value.token), Navigate(Destination(returnParam, state))]
             + (if |old(guest.Lines())| > 0 then [SyncSent(SyncItems(old(guest.Lines()), catalog))] else [])
             + (if |old(guest.Lines())| > 0 && syncAnswer.Success? then [CartUpdated] else [])
        && guest.stored == (if |old(guest.Lines())| > 0 && syncAnswer.Success? then None else old(guest.stored))
        && cache.events == old(cache.events) + SyncInvalidations(|old(guest.Lines())| > 0, syncAnswer)
      ensures answer.Success? && !SignsIn(answer.value) ==> error == RefusedMessage(answer.value)
      ensures answer.Failure? ==> error == ThrownMessage(answer.error)
      ensures !(answer.Success? && SignsIn(answer.value)) ==>
        effects == old(effects) && guest.stored == old(guest.stored) && cache.events == old(cache.events)
        && unchanged(auth)
      ensures cache.snapshot == old(cache.snapshot)
    {
      error := "";
      loading := true;
      match answer {
        case Success(r) =>
          if SignsIn(r) {
            var destination := Destination(returnParam, state);
            var trace, synced := SignInAndSync(auth, guest, cache, r, destination, catalog, syncAnswer);
            effects := effects + trace;
            if synced == Some(true) {
              effects := effects + [CartUpdated];
            }
          } else {
            error := RefusedMessage(r);
          }
        case Failure(e) =>
          error := ThrownMessage(e);
      }
      loading := false;
    }
  }

  // ---------------------------------------------------------------------------------------

  /** A successful login always lands somewhere, and a cart-bound visitor with no return address
      lands on the cart. */
  lemma CartVisitorReturnsToCart(state: LocationState)
    requires state.returnUrl == "" && state.from == "cart"
    ensures Destination("", state) == "/cart"
    ensures AutoRedirect(true, false, "", state) == Some("/cart")
  {
  }

  /** No redirect happens while an attempt is running, so the attempt's own navigation wins. */
  lemma NoRedirectWhileLoading(isAuthenticated: bool, returnParam: string, state: LocationState)
    ensures AutoRedirect(isAuthenticated, true, returnParam, state).None?
  {
  }

  /** A refused answer always shows some error, and a thrown one shows the body's error first. */
  lemma RefusalIsExplained(r: AuthResponse, e: Thrown)
    ensures RefusedMessage(r) != ""
    ensures e.response.Some? && e.response.value.error != "" ==> ThrownMessage(e) == e.response.value.error
    ensures e.response.None? && !e.isError ==> ThrownMessage(e) == "Login failed. Please try again."
  {
  }
}
