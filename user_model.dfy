/**
 * The account entity of users_app: Django's user extended with a phone
 * number, a Telegram chat id and a pending login token, all nullable. The
 * user table is an object whose rows are numbered by primary key in
 * creation order; the queries the core runs on it are functions over its rows.
 */
module UserModel {
  import opened Wrappers

  /** One row of the user table (only the columns the core reads or writes). */
  datatype User = User(
    username: string,
    email: string,              // blank allowed; Django stores "" rather than null
    phoneNumber: Option<string>,
    telegramId: Option<nat>,    // PositiveBigIntegerField, indexed but not unique
    token: Option<string>,      // pending Telegram login token
    isSuperuser: bool,
    isStaff: bool)

  /** The user table; the id of a row is its position. */
  class UserTable {
    var rows: seq<User>

    constructor (initial: seq<User>)
      ensures rows == initial
    {
      rows := initial;
    }
  }

  // ---------------------------------------------------------------------
  // __str__
  // ---------------------------------------------------------------------

  /** The prefix `__str__` puts before the Telegram id (the typo is the source's). */
  const IdLabel: string := "Telegran ID: "

  /** `__str__`: the username, or the label and the Telegram id when the username is empty. */
  function Display(u: User): (s: string)
    ensures u.username != "" ==> s == u.username
    ensures u.username == "" ==> |s| > |IdLabel| && s[..|IdLabel|] == IdLabel
    ensures u.username == "" ==> s == IdLabel + IdText(u.telegramId)
  {
    if u.username != "" then u.username else IdLabel + IdText(u.telegramId)
  }

  /** How Python formats an optional integer inside an f-string. */
  function IdText(id: Option<nat>): (s: string)
    ensures id.None? ==> s == "None"
    ensures id.Some? ==> AllDigits(s) && |s| > 0
  {
    match id
    case None => "None"
    case Some(n) => NatToString(n)
  }

  predicate IsDigit(c: char) {
    '0' <= c <= '9'
  }

  predicate AllDigits(s: string) {
    forall i :: 0 <= i < |s| ==> IsDigit(s[i])
  }

  function DigitChar(d: nat): (c: char)
    requires d < 10
    ensures IsDigit(c) && (c as int) - ('0' as int) == d
  {
    (('0' as int) + d) as char
  }

  /** Decimal rendering of a non-negative integer, without leading zeros. */
  function NatToString(n: nat): (s: string)
    ensures |s| > 0 && AllDigits(s)
    ensures |s| > 1 ==> s[0] != '0'
    decreases n
  {
    if n < 10 then [DigitChar(n)] else NatToString(n / 10) + [DigitChar(n % 10)]
  }

  /** The number a string of decimal digits denotes. */
  function DecimalValue(s: string): nat
    requires AllDigits(s)
  {
    if s == [] then 0
    else DecimalValue(s[..|s| - 1]) * 10 + ((s[|s| - 1] as int) - ('0' as int))
  }

  /** Decimal rendering loses nothing: the digits read back as the number. */
  lemma {:induction false} DecimalRoundTrip(n: nat)
    ensures DecimalValue(NatToString(n)) == n
  {
    if n >= 10 {
      DecimalRoundTrip(n / 10);
      var s := NatToString(n);
      assert s[..|s| - 1] == NatToString(n / 10);
    }
  }

  /** A user without a username displays as the label followed by a Telegram id that reads back exactly. */
  lemma DisplayShowsTelegramId(u: User)
    requires u.username == "" && u.telegramId.Some?
    ensures var s := Display(u); AllDigits(s[|IdLabel|..]) && DecimalValue(s[|IdLabel|..]) == u.telegramId.value
  {
    var s := Display(u);
    assert s[|IdLabel|..] == NatToString(u.telegramId.value);
    DecimalRoundTrip(u.telegramId.value);
  }

  // ---------------------------------------------------------------------
  // Queries on the user table
  // ---------------------------------------------------------------------

  /**
   * `User.objects.filter(token=t).first()`: with no ordering declared the
   * query orders by primary key, so this is the lowest id whose token is t.
   */
  function FirstWithToken(rows: seq<User>, t: string): (r: Option<nat>)
    ensures r.Some? ==> r.value < |rows| && rows[r.value].token == Some(t)
    ensures r.Some? ==> forall j :: 0 <= j < r.value ==> rows[j].token != Some(t)
    ensures r.None? ==> forall j :: 0 <= j < |rows| ==> rows[j].token != Some(t)
  {
    if rows == [] then None
    else if rows[0].token == Some(t) then Some(0)
    else match FirstWithToken(rows[1..], t)
      case None => None
      case Some(i) => Some(i + 1)
  }

  /** The ids, in increasing order, of the rows whose `telegram_id` is tid. */
  function WithTelegramId(rows: seq<User>, tid: nat): (ids: seq<nat>)
    ensures forall i: nat :: i in ids <==> i < |rows| && rows[i].telegramId == Some(tid)
    ensures forall k :: 0 <= k < |ids| ==> ids[k] < |rows|
    ensures forall a, b :: 0 <= a < b < |ids| ==> ids[a] < ids[b]
  {
    if rows == [] then []
    else
      var prev := WithTelegramId(rows[..|rows| - 1], tid);
      if rows[|rows| - 1].telegramId == Some(tid) then prev + [|rows| - 1] else prev
  }
}
