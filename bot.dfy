/**
 * The Telegram bot's `/start` handler. The message text is split on
 * whitespace; a second word, when there is one, is the login token the web
 * page showed. With a token, the user table is upserted on the chat id
 * (`update_or_create(telegram_id=..., defaults={username, token})`) and a
 * success reply with a link to the login page is sent; if anything in that
 * block raises, a failure reply is sent instead. Without a token the reply
 * tells the user to start from the site.
 */
module Bot {
  import opened Wrappers
  import opened UserModel

  // ---------------------------------------------------------------------
  // Parsing the command text: str.split() with no separator
  // ---------------------------------------------------------------------

  /** The characters Python's `str.isspace` (and so `str.split()`) treats as whitespace. */
  predicate IsSpace(c: char) {
    || c == ' ' || ('\t' <= c <= '\r') || ('\U{1C}' <= c <= '\U{1F}')
    || c == '\U{85}' || c == '\U{A0}' || c == '\U{1680}' || ('\U{2000}' <= c <= '\U{200A}')
    || c == '\U{2028}' || c == '\U{2029}' || c == '\U{202F}' || c == '\U{205F}' || c == '\U{3000}'
  }

  predicate NoSpace(w: string) {
    forall i :: 0 <= i < |w| ==> !IsSpace(w[i])
  }

  /** A word as `split()` yields it: non-empty, no whitespace inside. */
  predicate IsWord(w: string) {
    w != [] && NoSpace(w)
  }

  predicate AllWords(ws: seq<string>) {
    forall k :: 0 <= k < |ws| ==> IsWord(ws[k])
  }

  /** The length of the run of non-whitespace characters at the start of s. */
  function WordLength(s: string): (n: nat)
    ensures n <= |s| && NoSpace(s[..n])
    ensures n < |s| ==> IsSpace(s[n])
    ensures s != [] && !IsSpace(s[0]) ==> n > 0
  {
    if s == [] || IsSpace(s[0]) then 0 else 1 + WordLength(s[1..])
  }

  /** `s.split()`: the maximal runs of non-whitespace characters, in order. */
  function Words(s: string): (ws: seq<string>)
    ensures AllWords(ws)
    decreases |s|
  {
    if s == [] then []
    else if IsSpace(s[0]) then Words(s[1..])
    else
      var n := WordLength(s);
      [s[..n]] + Words(s[n..])
  }

  /** Words separated by single spaces (the shape of `/start <token>`). */
  function Join(ws: seq<string>): string {
    if |ws| == 0 then ""
    else if |ws| == 1 then ws[0]
    else ws[0] + " " + Join(ws[1..])
  }

  /** The token argument: the second word when there are at least two, else none. */
  function ParseToken(text: string): Option<string> {
    var ws := Words(text);
    if |ws| > 1 then Some(ws[1]) else None
  }

  lemma {:induction false} WordLengthOfWord(w: string, rest: string)
    requires NoSpace(w)
    requires rest == [] || IsSpace(rest[0])
    ensures WordLength(w + rest) == |w|
    decreases |w|
  {
    if w != [] {
      assert (w + rest)[1..] == w[1..] + rest;
      WordLengthOfWord(w[1..], rest);
    } else {
      assert w + rest == rest;
    }
  }

  /** Splitting undoes joining: the words of "w0 w1 ... wn" are w0, w1, ..., wn. */
  lemma {:induction false} WordsOfJoin(ws: seq<string>)
    requires AllWords(ws)
    ensures Words(Join(ws)) == ws
    decreases |ws|
  {
    if |ws| == 0 {
    } else if |ws| == 1 {
      var w := ws[0];
      WordLengthOfWord(w, []);
      assert w + [] == w;
      assert w[..|w|] == w && w[|w|..] == [];
    } else {
      var w := ws[0];
      var tail := " " + Join(ws[1..]);
      var s := w + tail;
      assert Join(ws) == s;
      WordLengthOfWord(w, tail);
      assert s[..|w|] == w;
      assert s[|w|..] == tail;
      assert tail[1..] == Join(ws[1..]);
      WordsOfJoin(ws[1..]);
      assert Words(tail) == Words(Join(ws[1..]));
      assert ws == [w] + ws[1..];
    }
  }

  /** `/start tok ...`: the token is the second word, whatever words follow it. */
  lemma ParseTokenSecondWord(command: string, token: string, more: seq<string>)
    requires IsWord(command) && IsWord(token)
    requires AllWords(more)
    ensures ParseToken(Join([command, token] + more)) == Some(token)
  {
    var ws := [command, token] + more;
    assert AllWords(ws) by {
      forall k | 0 <= k < |ws| ensures IsWord(ws[k]) {
        if k >= 2 { assert ws[k] == more[k - 2]; }
      }
    }
    WordsOfJoin(ws);
    assert ws[1] == token;
  }

  /** A bare `/start`, a text that is a single word, carries no token. */
  lemma ParseTokenBareCommand(command: string)
    requires IsWord(command)
    ensures ParseToken(command) == None
  {
    WordsOfJoin([command]);
  }

  /** A parsed token is always a word: non-empty and free of whitespace. */
  lemma ParsedTokenIsWord(text: string)
    requires ParseToken(text).Some?
    ensures IsWord(ParseToken(text).value)
  {
  }

  // ---------------------------------------------------------------------
  // update_or_create on telegram_id
  // ---------------------------------------------------------------------

  /** Why the upsert raises. */
  datatype UpsertError =
    | NegativeTelegramId        // the column is a PositiveBigIntegerField
    | MultipleObjectsReturned   // telegram_id is not unique, and the lookup uses get()
    | UsernameMissing           // the sender has no Telegram username; username is NOT NULL
    | UsernameTaken             // another row already has this username; username is UNIQUE

  /** The row update_or_create writes: the existing holder of the chat id, or a new row at the end. */
  function UpsertTarget(rows: seq<User>, telegramId: nat): nat {
    var holders := WithTelegramId(rows, telegramId);
    if holders == [] then |rows| else holders[0]
  }

  /** Whether a row other than `target` already has this username. */
  predicate UsernameOfOther(rows: seq<User>, name: string, target: nat) {
    exists j :: 0 <= j < |rows| && j != target && rows[j].username == name
  }

  /** The row the bot creates for a chat id nobody holds yet. */
  function ChatUser(telegramId: nat, username: string, token: string): User {
    User(username, "", None, Some(telegramId), Some(token), false, false)
  }

  /**
   * `User.objects.update_or_create(telegram_id=..., defaults={'username': ..., 'token': ...})`:
   * a get() on the chat id, then an update of the one holder or the creation
   * of a new row, the write failing on the table's constraints.
   */
  function UpdateOrCreate(rows: seq<User>, telegramId: int, username: Option<string>, token: string)
    : (r: Result<seq<User>, UpsertError>)
    ensures r.Success? <==>
      telegramId >= 0 && |WithTelegramId(rows, telegramId)| <= 1 && username.Some?
      && !UsernameOfOther(rows, username.value, UpsertTarget(rows, telegramId))
  {
    if telegramId < 0 then Failure(NegativeTelegramId)
    else
      var holders := WithTelegramId(rows, telegramId);
      if |holders| > 1 then Failure(MultipleObjectsReturned)
      else if username.None? then Failure(UsernameMissing)
      else if UsernameOfOther(rows, username.value, UpsertTarget(rows, telegramId)) then Failure(UsernameTaken)
      else if holders == [] then Success(rows + [ChatUser(telegramId, username.value, token)])
      else
        var i := holders[0];
        Success(rows[i := rows[i].(username := username.value, token := Some(token))])
  }

  /** With no holder of the chat id, a successful upsert appends one new row and changes no other. */
  lemma UpsertCreates(rows: seq<User>, telegramId: int, username: Option<string>, token: string)
    requires telegramId >= 0 && WithTelegramId(rows, telegramId) == []
    requires UpdateOrCreate(rows, telegramId, username, token).Success?
    ensures UpdateOrCreate(rows, telegramId, username, token).value
      == rows + [User(username.value, "", None, Some(telegramId), Some(token), false, false)]
  {
  }

  /**
   * With exactly one holder, a successful upsert overwrites that row's
   * username and token, keeps its other columns, and leaves every other row.
   */
  lemma UpsertUpdates(rows: seq<User>, telegramId: int, username: Option<string>, token: string, i: nat)
    requires telegramId >= 0 && i < |rows| && rows[i].telegramId == Some(telegramId)
    requires forall j :: 0 <= j < |rows| && j != i ==> rows[j].telegramId != Some(telegramId)
    requires UpdateOrCreate(rows, telegramId, username, token).Success?
    ensures var next := UpdateOrCreate(rows, telegramId, username, token).value;
      && |next| == |rows|
      && next[i] == rows[i].(username := username.value, token := Some(token))
      && forall j :: 0 <= j < |rows| && j != i ==> next[j] == rows[j]
  {
  }

  /** Because telegram_id is not unique, two rows sharing a chat id make every upsert on it fail. */
  lemma SharedTelegramIdFails(rows: seq<User>, telegramId: nat, username: Option<string>, token: string, i: nat, j: nat)
    requires i < j < |rows|
    requires rows[i].telegramId == Some(telegramId) && rows[j].telegramId == Some(telegramId)
    ensures UpdateOrCreate(rows, telegramId, username, token) == Failure(MultipleObjectsReturned)
  {
  }

  /** After a successful upsert, the chat id's row carries the token the bot received. */
  lemma UpsertBindsToken(rows: seq<User>, telegramId: int, username: Option<string>, token: string)
    requires UpdateOrCreate(rows, telegramId, username, token).Success?
    ensures var next := UpdateOrCreate(rows, telegramId, username, token).value;
      exists k :: 0 <= k < |next| && next[k].token == Some(token) && next[k].telegramId == Some(telegramId)
  {
    var next := UpdateOrCreate(rows, telegramId, username, token).value;
    var holders := WithTelegramId(rows, telegramId);
    if holders == [] {
      assert next[|rows|].token == Some(token);
    } else {
      assert holders[0] in holders;
      assert next[holders[0]].token == Some(token);
    }
  }

  // ---------------------------------------------------------------------
  // The handler
  // ---------------------------------------------------------------------

  /** The replies the handler can send to the chat. */
  datatype Reply =
    | GoToSite                  // no token: "go to the site to log in"
    | LoginSucceeded(url: string) // with a button linking to the login page
    | LoginFailed               // "an error occurred, try again"

  /** The login page link, `http://{DOMAIN}/users_app/login/`; an unset DOMAIN renders as None. */
  function LoginLink(domain: Option<string>): string {
    "http://" + (match domain case None => "None" case Some(d) => d) + "/users_app/login/"
  }

  /**
   * `start`: `chatId` is the chat's id, `senderUsername` the sender's
   * Telegram username, `domain` the configured DOMAIN, and `replyDelivered`
   * whether sending the success reply returns normally. The result lists the
   * replies the handler tries to send, in order.
   */
  method Start(users: UserTable, chatId: int, text: string, senderUsername: Option<string>,
               domain: Option<string>, replyDelivered: bool)
    returns (replies: seq<Reply>)
    modifies users
    ensures ParseToken(text).None? ==> replies == [GoToSite] && users.rows == old(users.rows)
    ensures ParseToken(text).Some? ==>
      match UpdateOrCreate(old(users.rows), chatId, senderUsername, ParseToken(text).value)
      case Failure(_) => replies == [LoginFailed] && users.rows == old(users.rows)
      case Success(next) =>
        && users.rows == next
        && replies == (if replyDelivered then [LoginSucceeded(LoginLink(domain))]
                       else [LoginSucceeded(LoginLink(domain)), LoginFailed])
  {
    var token := ParseToken(text);
    if token.Some? {
      var upserted := UpdateOrCreate(users.rows, chatId, senderUsername, token.value);
      match upserted
      case Failure(_) =>
        replies := [LoginFailed];
      case Success(next) =>
        users.rows := next;
        replies := [LoginSucceeded(LoginLink(domain))];
        if !replyDelivered {
          // the send raised inside the try block: the except branch replies again
          replies := replies + [LoginFailed];
        }
    } else {
      replies := [GoToSite];
    }
  }
}
