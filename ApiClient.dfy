/** The browser side of the API in client/src/services/api.js: the
    `localStorage` slot that holds the session token, the request
    interceptor that turns it into an `Authorization` header, and the
    response interceptor that turns 401 and membership 403 answers into
    page changes. */
module ApiClient {

  import opened Common
  import opened Models
  import opened Strings
  import opened AuthMiddleware

  /** The `localStorage` key the token lives under. */
  const TokenKey: string := "token"
  const AuthorizationHeader: string := "Authorization"
  const BearerPrefix: string := "Bearer "
  const LoginPage: string := "/login"
  const PricingPage: string := "/pricing"

  /** The header the request interceptor adds for a stored token, if any:
      `if (token)` skips both a missing token and the empty string. */
  function AuthorizationFor(token: Option<string>): (h: Option<string>)
    ensures h.Some? <==> Present(token)
    ensures h.Some? ==> BearerPrefix <= h.value && h.value[|BearerPrefix|..] == token.value
  {
    if Present(token) then Some(BearerPrefix + token.value) else None
  }

  /** What the server's `split(" ")[1]` reads back from the client's header:
      a token without spaces arrives whole, and no stored token means no
      token at all. */
  lemma BearerRoundTrip(token: Option<string>)
    requires token.Some? ==> ' ' !in token.value
    ensures TokenFromHeader(AuthorizationFor(token)) == if Present(token) then token else None
  {
    if Present(token) {
      var t := token.value;
      assert BearerPrefix == "Bearer" + [' '];
      assert BearerPrefix + t == "Bearer" + [' '] + t;
      SplitAfterWord("Bearer", ' ', t);
      SplitWithoutSeparator(t, ' ');
    }
  }

  /** A token with a space in it reaches the server cut at its first space. */
  lemma SpacedTokenIsCut(word: string, rest: string)
    requires word != "" && ' ' !in word
    ensures TokenFromHeader(AuthorizationFor(Some(word + [' '] + rest))) == Some(word)
  {
    var t := word + [' '] + rest;
    assert BearerPrefix + t == "Bearer" + [' '] + (word + [' '] + rest);
    SplitAfterWord("Bearer", ' ', word + [' '] + rest);
    SplitAfterWord(word, ' ', rest);
  }

  /** An error response as the interceptor sees it: the status and the
      truthiness of `data.requiresMembership`. */
  datatype Response = Response(status: int, requiresMembership: bool)

  /** How a request settles: a response, or an error with or without one
      (`error.response` is missing when the server could not be reached). */
  datatype Outcome = Success(response: Response) | Failure(errorResponse: Option<Response>)

  /** The response the server sends for one of its error envelopes. */
  function ResponseOf(e: HttpError): Response
  {
    Response(e.Status(), e.MembershipRequired?)
  }

  /** Where the response interceptor sends the browser after an error. */
  function Redirect(errorResponse: Option<Response>): (page: Option<string>)
    ensures errorResponse.None? ==> page.None?
    ensures page == Some(LoginPage) <==> errorResponse.Some? && errorResponse.value.status == 401
    ensures page == Some(PricingPage) <==>
              errorResponse.Some? && errorResponse.value.status == 403 && errorResponse.value.requiresMembership
  {
    match errorResponse
    case None => None
    case Some(r) =>
      if r.status == 401 then Some(LoginPage)
      else if r.status == 403 && r.requiresMembership then Some(PricingPage)
      else None
  }

  /** The server's errors as the client handles them: every 401 (a missing,
      bad or expired token) sends the user to the login page, the membership
      gate's 403 to the pricing page, and no other error moves the browser. */
  lemma ServerErrorsRedirect(e: HttpError)
    ensures Redirect(Some(ResponseOf(e))) ==
              if e.Status() == 401 then Some(LoginPage)
              else if e == MembershipRequired then Some(PricingPage)
              else None
  {
  }

  /** The errors `verifyToken` answers with all end on the login page. */
  lemma TokenErrorsGoToLogin(header: Option<string>, verify: string -> Option<Claims>, users: map<UserId, User>)
    requires Authenticate(header, verify, users).Err?
    ensures Redirect(Some(ResponseOf(Authenticate(header, verify, users).error))) == Some(LoginPage)
  {
  }

  /** The client's storage, current page and the token interceptors. */
  class Client {
    /** `localStorage` */
    var storage: map<string, string>
    /** `window.location.href` */
    var location: string

    constructor (storage: map<string, string>, location: string)
      ensures this.storage == storage && this.location == location
    {
      this.storage := storage;
      this.location := location;
    }

    /** `localStorage.getItem("token")` */
    function StoredToken(): Option<string>
      reads this`storage
    {
      Get(storage, TokenKey)
    }

    /** `setToken`: stores the token under the key the request interceptor reads. */
    method SetToken(token: string)
      modifies this`storage
      ensures storage == old(storage)[TokenKey := token]
      ensures StoredToken() == Some(token)
    {
      storage := storage[TokenKey := token];
    }

    /** `removeToken`: clears that key and nothing else. */
    method RemoveToken()
      modifies this`storage
      ensures storage == old(storage) - {TokenKey}
      ensures StoredToken().None?
    {
      storage := storage - {TokenKey};
    }

    /** The request interceptor: the outgoing headers are those given, with
        `Authorization` set from the stored token when there is one. */
    method PrepareRequest(headers: map<string, string>) returns (sent: map<string, string>)
      ensures Present(StoredToken()) ==>
                sent == headers[AuthorizationHeader := BearerPrefix + StoredToken().value]
      ensures !Present(StoredToken()) ==> sent == headers
      ensures Get(sent, AuthorizationHeader) ==
                if Present(StoredToken()) then AuthorizationFor(StoredToken()) else Get(headers, AuthorizationHeader)
    {
      var token := Get(storage, TokenKey);
      sent := headers;
      if token.Some? && token.value != "" {
        sent := sent[AuthorizationHeader := BearerPrefix + token.value];
      }
    }

    /** The response interceptor. A success passes through unchanged; an
        error is handled, then rejected again as it came: a 401 logs the
        user out and goes to the login page, a membership 403 goes to the
        pricing page. */
    method Settle(outcome: Outcome) returns (result: Outcome)
      modifies this`storage, this`location
      ensures result == outcome
      ensures outcome.Success? ==> storage == old(storage) && location == old(location)
      ensures outcome.Failure? ==>
                && storage == (if Redirect(outcome.errorResponse) == Some(LoginPage) then old(storage) - {TokenKey} else old(storage))
                && location == (match Redirect(outcome.errorResponse) case Some(page) => page case None => old(location))
    {
      result := outcome;
      if outcome.Failure? {
        var response := outcome.errorResponse;
        if response.Some? && response.value.status == 401 {
          storage := storage - {TokenKey};
          location := LoginPage;
        }
        if response.Some? && response.value.status == 403 && response.value.requiresMembership {
          location := PricingPage;
        }
      }
    }
  }

  /** After a 401 has been handled the next request carries no token, so
      the server answers it with the missing-token 401 again until the user
      logs in: the response interceptor's `removeToken` followed by the
      request interceptor, on the client's own state. */
  method LoggedOutSendsNoToken(c: Client, response: Response, headers: map<string, string>,
                               verify: string -> Option<Claims>, users: map<UserId, User>)
      returns (sent: map<string, string>)
    requires response.status == 401
    requires AuthorizationHeader !in headers
    modifies c
    ensures c.StoredToken().None? && c.location == LoginPage
    ensures sent == headers
    ensures Authenticate(Get(sent, AuthorizationHeader), verify, users) == Err(NoTokenProvided)
  {
    var settled := c.Settle(Failure(Some(response)));
    sent := c.PrepareRequest(headers);
  }

  /** A session: the token `setToken` stores is the token the server reads
      from every following request. */
  lemma SessionCarriesToken(storage: map<string, string>, token: string)
    requires token != "" && ' ' !in token
    ensures TokenFromHeader(AuthorizationFor(Get(storage[TokenKey := token], TokenKey))) == Some(token)
  {
    BearerRoundTrip(Some(token));
  }
}
