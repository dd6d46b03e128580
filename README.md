# Notification dispatch and Telegram login: a Dafny model

This project models the core of a small Django site. A logged-in user can be sent a message by email, SMS and Telegram. Each dispatch leaves a notification record with one delivery flag per channel. Users log in with a password, or through a Telegram bot that pairs a browser cookie with a chat account.

Modules:

- `Wrappers`: `Option` and `Result`.
- `UserModel`: the user row, Django's `User` with phone number, Telegram id and login token, all nullable. Also the user table object, `__str__`, and the two queries the core runs on the table: lookup by token and lookup by Telegram id.
- `NotificationModel`: the notification row. It holds recipient, message, three flags that start false and the creation time. Also the flag operations.
- `Notifications`: the four dispatch functions as methods of a `Dispatcher` object. That object holds the notification table and a trace of what it did: record created, transport called (with the outcome), record saved. Each method is proved against a plan of attempts (`Run`, `Outcome`). The lemmas about plans establish the following:
  - Every planned call is made, in order, whatever earlier calls did.
  - Every save follows a call that returned normally.
  - Flags only rise.
  - The saves alone reproduce the final record.
  - A flag ends up raised exactly when some call on its channel returned normally.
- `UserViews`: the login views as decision functions (`TelegramLogin`, `PasswordLogin`) and as methods of a browser `Session` object whose one field is the logged-in user. Responses are values that say what happens to the `token` cookie. `user_is_superuser` updates the user table in place.
- `Bot`: the `/start` handler:
  - `str.split()` over Python's whitespace set, proved to undo a space-separated join.
  - The token argument.
  - `update_or_create` on `telegram_id`, with the ways it raises.
  - The replies sent.
- `Pairing`: the two halves joined. After a successful bot upsert of token t, a browser whose cookie is t is logged in as a holder of t, and its cookie is deleted.

Inputs from outside:

- Whether each transport call returns normally (`Delivery`, `ok`, `replyDelivered`).
- The token `uuid4()` would produce (`newToken`).
- The password check (`authenticate`, a function).
- The time of creation (`now`).
- The settings TELEGRAM_BOT_NAME and DOMAIN (`Option<string>`, since `os.getenv` may return None).

Points where the code does less than one might expect:

- The bot bind does not clear or rotate the user's token. `LoginTelegram` only reads the user table (its frame is the session), so a used token stays valid.
- Only `send_email_notification` checks for a missing email address. `send_all_notification` calls the mail transport with whatever address is on file, even an empty one.
- There is no dispatch over a chosen subset of channels. There are four functions: all three channels, or exactly one channel.
- None of the four returns the record. The methods return nothing, and the new state of the table says what was stored.
- The bot's success reply links to the login page itself, `http://{DOMAIN}/users_app/login/`.

How `update_or_create(telegram_id=..., defaults={username, token})` can raise, as modelled in `Bot.UpdateOrCreate`:

- The lookup is a `get()` on a column that is indexed but not unique, so two rows with the same chat id make it raise `MultipleObjectsReturned`.
- The write fails when the sender has no Telegram username, because `username` is NOT NULL.
- The write fails when another row already has that username, because `username` is UNIQUE.
- The write fails when the chat id is negative, because `telegram_id` is a PositiveBigIntegerField.

When the upsert succeeds but sending the success reply raises, the `except` branch sends the failure reply as well.

## Model

| member | source | states |
|---|---|---|
| `NotificationModel.NewNotification` | main/apps/main_app/models.py:12-17 | a new record names the given user and message, carries the creation time, and has all three delivery flags false |
| `NotificationModel.Mark` | main/apps/main_app/notifications.py:22 | raising a channel's flag sets that flag, leaves the other two as they were, and keeps user, message and creation time |
| `Notifications.Dispatcher.Create` | main/apps/main_app/notifications.py:14 | `Notification.objects.create` appends one blank record for the user and message, and the trace records its creation |
| `Notifications.Dispatcher.Save` | main/apps/main_app/notifications.py:23 | `save()` replaces the stored row with the in-memory record and is recorded in the trace |
| `Notifications.Dispatcher.TryChannel` | main/apps/main_app/notifications.py:15-25 | one try block: the call is always made; on a normal return the flag is raised and saved at once; on an exception nothing is stored and nothing propagates |
| `Notifications.Dispatcher.SendAllNotification` | main/apps/main_app/notifications.py:11-45 | exactly one new record, created before any call; email (to the address on file, even an empty one), SMS and Telegram are tried in that order; the stored flags equal the three outcomes; user, message and time are as given |
| `Notifications.Dispatcher.SendSmsNotification` | main/apps/main_app/notifications.py:48-62 | its own new record; one SMS call; `sms_sent` equals its outcome and the other flags stay false |
| `Notifications.Dispatcher.SendEmailNotification` | main/apps/main_app/notifications.py:65-81 | its own new record; no call at all when the email is empty (flag stays false), otherwise one call whose outcome is `email_sent`; other flags stay false |
| `Notifications.Dispatcher.SendTelegramNotification` | main/apps/main_app/notifications.py:84-93 | its own new record; one Telegram call; `telegram_sent` equals its outcome and the other flags stay false |
| `Notifications.RunAttemptsFollowPlan` | main/apps/main_app/notifications.py:15-45 | failure isolation: the transport calls of a run are exactly the planned ones, in plan order, whatever the outcomes of earlier calls |
| `Notifications.RunSavesFollowSuccess` | main/apps/main_app/notifications.py:15-42 | every save comes immediately after a call that returned normally, is of the dispatch's own record, and stores that channel's flag raised |
| `Notifications.RunMonotone` | main/apps/main_app/notifications.py:15-42 | flags only go from false to true: every saved state lies between the created and the final record, and each is below every later one |
| `Notifications.OutcomeBelow` | main/apps/main_app/notifications.py:14-42 | recipient, message and creation time of the final record are those given at creation; no flag is ever lowered |
| `Notifications.RunPersistsOutcome` | main/apps/main_app/notifications.py:22-42 | replaying the saves of a run yields exactly the final record |
| `Notifications.RunRecordsPartialProgress` | main/apps/main_app/notifications.py:15-45 | saves are not batched: after any number j of calls, the trace so far holds exactly those j calls, its saves already give the record as it stands after them, and the rest of the run continues from that record |
| `Notifications.RunCreatesNothing` | main/apps/main_app/notifications.py:14 | after the initial create, a dispatch creates no further record |
| `Notifications.OutcomeSent` | main/apps/main_app/notifications.py:15-45 | a flag is raised at the end if and only if it was raised before or some call on that channel returned normally |
| `Notifications.AllChannelsOutcome` | main/apps/main_app/notifications.py:15-45 | for the full dispatch the three flags equal the three outcomes, and the calls are email, SMS, Telegram to the user's address, phone and chat id |
| `Notifications.SingleChannelOutcome` | main/apps/main_app/notifications.py:48-93 | a one-channel dispatch can raise only its own flag, and raises it exactly when the call returns normally |
| `UserModel.Display` | main/apps/users_app/models.py:20-21 | `__str__` is the username when it is non-empty, and otherwise is "Telegran ID: " followed by the chat id, or by "None" when there is none |
| `UserModel.IdText` | main/apps/users_app/models.py:21 | a missing Telegram id renders as "None", a present one as decimal digits |
| `UserModel.NatToString` | main/apps/users_app/models.py:21 | decimal rendering is non-empty, all digits, and has no leading zero |
| `UserModel.DecimalRoundTrip` | main/apps/users_app/models.py:21 | the decimal rendering of an id reads back as that id |
| `UserModel.DisplayShowsTelegramId` | main/apps/users_app/models.py:21 | for a user without a username, the text after the label is exactly the Telegram id in decimal |
| `UserModel.FirstWithToken` | main/apps/users_app/views.py:17 | `filter(token=t).first()` returns the lowest id whose token is t, or nothing when no row holds t |
| `UserModel.WithTelegramId` | main/apps/main_app/management/commands/run_bot.py:28 | the lookup on `telegram_id` yields exactly the ids of all rows holding the chat id, in increasing order, possibly several because the column is not unique |
| `UserViews.AuthenticatedRedirects` | main/apps/users_app/views.py:10-31 | a logged-in visitor to either login view is redirected to the index and the session is kept; no token is used and the cookie is untouched |
| `UserViews.NoCookieIssuesToken` | main/apps/users_app/views.py:13-25 | without a cookie a new token is issued; the same value is shown on the login page and set as the cookie with max_age 12 hours |
| `UserViews.MatchingCookieLogsIn` | main/apps/users_app/views.py:16-22 | a cookie token held by some user logs in the lowest-id holder, redirects to the index and deletes the cookie |
| `UserViews.UnmatchedCookieKept` | main/apps/users_app/views.py:16-25 | a cookie token nobody holds is not replaced: the page shows it and the cookie is set again to the same value, with nobody logged in |
| `UserViews.CookieIgnoresNewToken` | main/apps/users_app/views.py:13-17 | a reload with a cookie never generates a token: the outcome does not depend on the freshly generated value |
| `UserViews.TelegramLoginLogsInIff` | main/apps/users_app/views.py:13-22 | the token login logs an anonymous visitor in exactly when there is a cookie and some user holds its value |
| `UserViews.PasswordLoginPost` | main/apps/users_app/views.py:32-42 | valid credentials log in the authenticated user and redirect; invalid ones render the login page with error and log nobody in |
| `UserViews.PasswordLoginGet` | main/apps/users_app/views.py:43-44 | a GET on the password login view behaves exactly as the token login, so its page carries TELEGRAM_BOT_NAME |
| `UserViews.Session.LoginTelegram` | main/apps/users_app/views.py:10-26 | the view's response and the session's new user are those `TelegramLogin` decides; the modelled columns of the user table, including the used token, are unchanged |
| `UserViews.Session.LoginView` | main/apps/users_app/views.py:29-44 | the view's response and the session's new user are those `PasswordLogin` decides; the GET branch runs the token login; the modelled columns of the user table are unchanged |
| `UserViews.Session.LogoutView` | main/apps/users_app/views.py:47-49 | the session no longer has a user and the index page is rendered |
| `UserViews.Session.UserIsSuperuser` | main/apps/users_app/views.py:91-98 | the logged-in user's row gets is_superuser and is_staff set, no other row or column changes, and the account page is rendered; an anonymous visitor is sent to login |
| `Bot.WordLength` | main/apps/main_app/management/commands/run_bot.py:25 | the leading run of non-whitespace characters ends at the end of the text or at a whitespace character |
| `Bot.Words` | main/apps/main_app/management/commands/run_bot.py:25 | every word `split()` yields is non-empty and contains no whitespace |
| `Bot.WordsOfJoin` | main/apps/main_app/management/commands/run_bot.py:25 | splitting space-separated words gives back exactly those words |
| `Bot.ParseTokenSecondWord` | main/apps/main_app/management/commands/run_bot.py:25 | in `/start tok w3 w4 ...` the token is tok; the words after the second are ignored |
| `Bot.ParseTokenBareCommand` | main/apps/main_app/management/commands/run_bot.py:25 | a message of one word has no token |
| `Bot.ParsedTokenIsWord` | main/apps/main_app/management/commands/run_bot.py:25 | a parsed token is non-empty and has no whitespace |
| `Bot.UpdateOrCreate` | main/apps/main_app/management/commands/run_bot.py:28-30 | the upsert succeeds exactly when the chat id is non-negative, at most one row holds it, the sender has a username, and no other row has that username |
| `Bot.UpsertCreates` | main/apps/main_app/management/commands/run_bot.py:28-30 | when no row holds the chat id, a successful upsert appends one row with that chat id, the sender's username and the token, and changes nothing else |
| `Bot.UpsertUpdates` | main/apps/main_app/management/commands/run_bot.py:28-30 | when one row holds the chat id, a successful upsert overwrites that row's username and token, keeps its other columns, and leaves the other rows as they were |
| `Bot.SharedTelegramIdFails` | main/apps/main_app/management/commands/run_bot.py:28-30 | two rows sharing a chat id make every upsert on it raise MultipleObjectsReturned |
| `Bot.UpsertBindsToken` | main/apps/main_app/management/commands/run_bot.py:28-30 | after a successful upsert some row holds the chat id and the received token |
| `Bot.Start` | main/apps/main_app/management/commands/run_bot.py:22-41 | no token: only the go-to-site reply is sent and the table is unchanged; token and the upsert raises: only the failure reply is sent and the table is unchanged; token and success: the table is the upserted one and the success reply (with the login link) is sent, followed by the failure reply if sending it raised |
| `Pairing.BindThenPoll` | main/apps/users_app/views.py:13-22 | after the bot binds the token from `/start <token>`, a browser with that token as its cookie is logged in as a holder of the token, redirected to the index, and its cookie deleted |
| `Pairing.Handshake` | main/apps/users_app/views.py:10-26 | the full pairing on live objects: the first visit issues a token, the bot binds it, and the second visit logs the browser in as a user who still holds the token |

## Left out

- Transports: `send_mail`, the Twilio client and `bot.send_message` are not modelled. Each call is recorded with its destination and text, and whether it returns normally is an input. The mail subject "Notification", the sender (`from_email=None`, so Django's default sender), the Twilio account settings and the sending number are not represented.
- Database failures: a failing `Notification.objects.create` or `save()` is not modelled. Such a failure would abort a whole dispatch or leave a raised in-memory flag for a later save to store.
- `uuid4()` randomness: the token is a parameter, and the model claims nothing about its entropy or uniqueness.
- Django authentication and sessions: `authenticate` is an abstract function from username and password to a user id, and `login`/`logout` set and clear the session's one field.
  - `login_required` is modelled only for `user_is_superuser`, as a redirect to the login page. The `?next=` parameter is not kept.
  - `UserViews.Session.UserIsSuperuser` requires that a logged-in session's user id is a row of the table, which Django's session handling guarantees.
- A POST without `username` or `password` fields raises in the source (`request.POST[...]`). The model takes both fields as present.
- Forms and the views built on them, `register`, `edit_user` and `my_account`, are Django form machinery and are not modelled. Neither are main_app's views, which only pass fixed strings to the dispatch functions.
- URL routing, template rendering, `load_dotenv`/`os.getenv` (settings are parameters), `print` logging, and the bot's polling loop `Command.handle`.
- Cookie expiry timing: there is no clock. The 12-hour `max_age` is kept as the constant `TokenMaxAge`, and creation times are an input.
- Database limits not enforced by the model: the 64-bit upper bound of `telegram_id`, the maximum lengths of `username` and `token`, and database errors other than the four listed for `Bot.UpdateOrCreate`.
- `Bot.Start`: an exception raised by the failure reply or by the go-to-site reply escapes the handler into the bot library. That case is not modelled: both replies are taken to be sent.
- Strings are sequences of code points, with no normalisation. The phone number is an uninterpreted optional string, since the `phonenumber_field` validation is not visible.
