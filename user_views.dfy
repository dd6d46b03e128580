/**
 * The account views of users_app that decide something: the Telegram-token
 * login, the password login, logout and the self-promotion to superuser.
 *
 * A browser session is an object whose one field is the id of the logged-in
 * user (Django's `login`/`logout` set and clear it). A response is a value:
 * a redirect or a rendered page, plus what it does to the `token` cookie.
 * The random token `uuid4()` would produce, the password check
 * `authenticate` and the TELEGRAM_BOT_NAME setting are parameters.
 */
module UserViews {
  import opened Wrappers
  import opened UserModel

  /** `max_age` of the token cookie: twelve hours, in seconds. */
  const TokenMaxAge: nat := 60 * 60 * 12

  datatype Target = IndexUrl | LoginUrl

  /** The templates the views render, with the context they pass. */
  datatype Page =
    | LoginPage(botName: Option<string>, token: string)  // context TELEGRAM_BOT_NAME and token
    | LoginErrorPage                                     // context error=True
    | IndexPage
    | AccountPage

  /** What a response does to the browser's `token` cookie. */
  datatype CookieOp = Untouched | SetToken(value: string, maxAge: nat) | DeleteToken

  datatype Response = Redirect(to: Target, cookie: CookieOp) | Render(page: Page, cookie: CookieOp)

  datatype HttpMethod = Get | Post(username: string, password: string)

  /** A view's response together with the session's logged-in user afterwards. */
  datatype LoginOutcome = LoginOutcome(response: Response, session: Option<nat>)

  // ---------------------------------------------------------------------
  // The decisions, as functions of the request and the user table
  // ---------------------------------------------------------------------

  /**
   * `login_telegram`. `session` is the logged-in user, `cookie` the request's
   * token cookie, `newToken` the value uuid4() produces on this call.
   */
  function TelegramLogin(session: Option<nat>, cookie: Option<string>, rows: seq<User>,
                         newToken: string, botName: Option<string>): (o: LoginOutcome)
  {
    if session.Some? then LoginOutcome(Redirect(IndexUrl, Untouched), session)
    else
      var token := if cookie.None? then newToken else cookie.value;
      var holder := if cookie.None? then None else FirstWithToken(rows, token);
      if holder.Some? then LoginOutcome(Redirect(IndexUrl, DeleteToken), holder)
      else LoginOutcome(Render(LoginPage(botName, token), SetToken(token, TokenMaxAge)), None)
  }

  /** `login_view`: a POST checks the credentials through `authenticate`; anything else is `login_telegram`. */
  function PasswordLogin(session: Option<nat>, request: HttpMethod, cookie: Option<string>, rows: seq<User>,
                         newToken: string, botName: Option<string>,
                         authenticate: (string, string) -> Option<nat>): (o: LoginOutcome)
  {
    if session.Some? then LoginOutcome(Redirect(IndexUrl, Untouched), session)
    else match request
      case Post(username, password) =>
        (match authenticate(username, password)
         case Some(uid) => LoginOutcome(Redirect(IndexUrl, Untouched), Some(uid))
         case None => LoginOutcome(Render(LoginErrorPage, Untouched), None))
      case Get => TelegramLogin(session, cookie, rows, newToken, botName)
  }

  // ---------------------------------------------------------------------
  // Properties of the decisions
  // ---------------------------------------------------------------------

  /** A logged-in visitor is sent to the index by both login views, keeps the session, and the cookie is untouched. */
  lemma AuthenticatedRedirects(uid: nat, cookie: Option<string>, rows: seq<User>, newToken: string,
                               botName: Option<string>, request: HttpMethod,
                               authenticate: (string, string) -> Option<nat>)
    ensures TelegramLogin(Some(uid), cookie, rows, newToken, botName)
      == LoginOutcome(Redirect(IndexUrl, Untouched), Some(uid))
    ensures PasswordLogin(Some(uid), request, cookie, rows, newToken, botName, authenticate)
      == LoginOutcome(Redirect(IndexUrl, Untouched), Some(uid))
  {
  }

  /** Without a cookie a new token is issued: the same value is shown on the page and set as a 12-hour cookie. */
  lemma NoCookieIssuesToken(rows: seq<User>, newToken: string, botName: Option<string>)
    ensures TelegramLogin(None, None, rows, newToken, botName)
      == LoginOutcome(Render(LoginPage(botName, newToken), SetToken(newToken, TokenMaxAge)), None)
  {
  }

  /**
   * A cookie token held by some user logs in the lowest-id holder,
   * redirects to the index and deletes the cookie.
   */
  lemma MatchingCookieLogsIn(t: string, rows: seq<User>, newToken: string, botName: Option<string>, k: nat)
    requires k < |rows| && rows[k].token == Some(t)
    ensures var o := TelegramLogin(None, Some(t), rows, newToken, botName);
      && o.response == Redirect(IndexUrl, DeleteToken)
      && o.session.Some? && o.session.value <= k && rows[o.session.value].token == Some(t)
  {
  }

  /** A cookie token nobody holds is kept: the page shows it and the cookie is set again to the same value. */
  lemma UnmatchedCookieKept(t: string, rows: seq<User>, newToken: string, botName: Option<string>)
    requires forall k :: 0 <= k < |rows| ==> rows[k].token != Some(t)
    ensures TelegramLogin(None, Some(t), rows, newToken, botName)
      == LoginOutcome(Render(LoginPage(botName, t), SetToken(t, TokenMaxAge)), None)
  {
  }

  /** Reloading with a cookie never uses a fresh token: the outcome does not depend on what uuid4() would give. */
  lemma CookieIgnoresNewToken(session: Option<nat>, t: string, rows: seq<User>, a: string, b: string,
                              botName: Option<string>)
    ensures TelegramLogin(session, Some(t), rows, a, botName) == TelegramLogin(session, Some(t), rows, b, botName)
  {
  }

  /** The token login logs a visitor in exactly when the cookie is present and some user holds its value. */
  lemma TelegramLoginLogsInIff(cookie: Option<string>, rows: seq<User>, newToken: string, botName: Option<string>)
    ensures TelegramLogin(None, cookie, rows, newToken, botName).session.Some?
      <==> cookie.Some? && exists k :: 0 <= k < |rows| && rows[k].token == Some(cookie.value)
  {
  }

  /** Valid credentials log in the user `authenticate` returns and redirect; invalid ones show the error page and log nobody in. */
  lemma PasswordLoginPost(username: string, password: string, cookie: Option<string>, rows: seq<User>,
                          newToken: string, botName: Option<string>,
                          authenticate: (string, string) -> Option<nat>)
    ensures var o := PasswordLogin(None, Post(username, password), cookie, rows, newToken, botName, authenticate);
      match authenticate(username, password)
      case Some(uid) => o == LoginOutcome(Redirect(IndexUrl, Untouched), Some(uid))
      case None => o == LoginOutcome(Render(LoginErrorPage, Untouched), None)
  {
  }

  /** A GET on the password login page behaves exactly as the token login, so the page carries TELEGRAM_BOT_NAME. */
  lemma PasswordLoginGet(session: Option<nat>, cookie: Option<string>, rows: seq<User>, newToken: string,
                         botName: Option<string>, authenticate: (string, string) -> Option<nat>)
    ensures PasswordLogin(session, Get, cookie, rows, newToken, botName, authenticate)
      == TelegramLogin(session, cookie, rows, newToken, botName)
    ensures session.None? && TelegramLogin(session, cookie, rows, newToken, botName).response.Render? ==>
      PasswordLogin(session, Get, cookie, rows, newToken, botName, authenticate).response.page.LoginPage?
  {
  }

  // ---------------------------------------------------------------------
  // The views
  // ---------------------------------------------------------------------

  /** A browser session. */
  class Session {
    /** The id of the logged-in user, if any. */
    var user: Option<nat>

    constructor ()
      ensures user == None
    {
      user := None;
    }

    /** `login_telegram`. The user table is only read: a used token stays on its user. */
    method LoginTelegram(users: UserTable, cookie: Option<string>, newToken: string, botName: Option<string>)
      returns (response: Response)
      modifies this
      ensures LoginOutcome(response, user) == TelegramLogin(old(user), cookie, users.rows, newToken, botName)
      ensures users.rows == old(users.rows)
    {
      if user.Some? {
        return Redirect(IndexUrl, Untouched);
      }
      var token := cookie;
      if token.None? {
        token := Some(newToken);
      } else {
        var holder := FirstWithToken(users.rows, token.value);
        if holder.Some? {
          user := holder;
          return Redirect(IndexUrl, DeleteToken);
        }
      }
      response := Render(LoginPage(botName, token.value), SetToken(token.value, TokenMaxAge));
    }

    /** `login_view`. */
    method LoginView(users: UserTable, request: HttpMethod, cookie: Option<string>, newToken: string,
                     botName: Option<string>, authenticate: (string, string) -> Option<nat>)
      returns (response: Response)
      modifies this
      ensures LoginOutcome(response, user)
        == PasswordLogin(old(user), request, cookie, users.rows, newToken, botName, authenticate)
      ensures users.rows == old(users.rows)
    {
      if user.Some? {
        return Redirect(IndexUrl, Untouched);
      }
      match request
      case Post(username, password) =>
        var found := authenticate(username, password);
        if found.Some? {
          user := found;
          response := Redirect(IndexUrl, Untouched);
        } else {
          response := Render(LoginErrorPage, Untouched);
        }
      case Get =>
        response := LoginTelegram(users, cookie, newToken, botName);
    }

    /** `logout_view`: the session forgets its user; the index is rendered; the token cookie is left alone. */
    method LogoutView() returns (response: Response)
      modifies this
      ensures user == None && response == Render(IndexPage, Untouched)
    {
      user := None;
      response := Render(IndexPage, Untouched);
    }

    /**
     * `user_is_superuser`, behind `login_required`: an anonymous visitor is
     * sent to the login page; otherwise the logged-in user's row gets both
     * is_superuser and is_staff and no other row or column changes.
     */
    method UserIsSuperuser(users: UserTable) returns (response: Response)
      requires user.Some? ==> user.value < |users.rows|
      modifies users
      ensures user.None? ==> response == Redirect(LoginUrl, Untouched) && users.rows == old(users.rows)
      ensures user.Some? ==>
        && response == Render(AccountPage, Untouched)
        && users.rows == old(users.rows)[user.value := old(users.rows)[user.value].(isSuperuser := true, isStaff := true)]
    {
      if user.None? {
        return Redirect(LoginUrl, Untouched);
      }
      var uid := user.value;
      var u := users.rows[uid];
      u := u.(isSuperuser := true);
      u := u.(isStaff := true);
      users.rows := users.rows[uid := u];
      response := Render(AccountPage, Untouched);
    }
  }
}
