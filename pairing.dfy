/**
 * The two halves of the Telegram login put together: the bot binds the
 * token from `/start <token>` to the chat's account, and the browser that
 * holds the same token in its cookie is then logged in on its next visit to
 * the login page.
 */
module Pairing {
  import opened Wrappers
  import opened UserModel
  import opened Bot
  import opened UserViews

  /**
   * After the bot's upsert succeeds for a `/start` message carrying token t,
   * an anonymous browser whose cookie is t is logged in as a user holding t,
   * redirected to the index, and its cookie deleted.
   */
  lemma BindThenPoll(rows: seq<User>, chatId: int, text: string, sender: Option<string>,
                     newToken: string, botName: Option<string>)
    requires ParseToken(text).Some?
    requires UpdateOrCreate(rows, chatId, sender, ParseToken(text).value).Success?
    ensures var t := ParseToken(text).value;
      var next := UpdateOrCreate(rows, chatId, sender, t).value;
      var o := TelegramLogin(None, Some(t), next, newToken, botName);
      && o.response == Redirect(IndexUrl, DeleteToken)
      && o.session.Some? && o.session.value < |next| && next[o.session.value].token == Some(t)
  {
    var t := ParseToken(text).value;
    var next := UpdateOrCreate(rows, chatId, sender, t).value;
    UpsertBindsToken(rows, chatId, sender, t);
    var k :| 0 <= k < |next| && next[k].token == Some(t) && next[k].telegramId == Some(chatId);
    MatchingCookieLogsIn(t, next, newToken, botName, k);
  }

  /**
   * The whole handshake on the live objects: a browser without a cookie is
   * issued a token, the bot receives `/start <token>`, and the browser's next
   * visit logs it in. The token is not consumed: the row still holds it.
   */
  method Handshake(users: UserTable, browser: Session, chatId: int, sender: Option<string>,
                   newToken: string, botName: Option<string>, domain: Option<string>)
    returns (first: Response, replies: seq<Reply>, second: Response)
    requires browser.user.None?
    requires IsWord(newToken)
    requires UpdateOrCreate(users.rows, chatId, sender, newToken).Success?
    modifies users, browser
    ensures first == Render(LoginPage(botName, newToken), SetToken(newToken, TokenMaxAge))
    ensures replies == [LoginSucceeded(LoginLink(domain))]
    ensures second == Redirect(IndexUrl, DeleteToken)
    ensures browser.user.Some? && browser.user.value < |users.rows|
    ensures users.rows[browser.user.value].token == Some(newToken)
  {
    first := browser.LoginTelegram(users, None, newToken, botName);
    var text := Join(["/start", newToken]);
    ParseTokenSecondWord("/start", newToken, []);
    assert [ "/start", newToken] + [] == ["/start", newToken];
    replies := Bot.Start(users, chatId, text, sender, domain, true);
    BindThenPoll(old(users.rows), chatId, text, sender, newToken, botName);
    second := browser.LoginTelegram(users, Some(first.cookie.value), newToken, botName);
  }
}
