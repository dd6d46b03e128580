/**
 * Multi-channel dispatch. Each entry point creates one notification record
 * with every flag down, then tries its channels one after another, each in
 * its own try block: when the transport call returns normally the channel's
 * flag is raised and the record saved at once; when it raises, the error is
 * swallowed and the next channel is tried. Nothing reaches the caller.
 *
 * The transports are not modelled: whether a call returns normally is an
 * input (an `Attempt`'s `ok`). A dispatcher keeps the notification table
 * and, to make order observable, a trace of record creations, transport
 * calls and saves.
 */
module Notifications {
  import opened Wrappers
  import opened UserModel
  import opened NotificationModel

  /** Where a transport call is addressed: the user's column the source passes. */
  datatype Destination =
    | EmailAddress(address: string)
    | PhoneNumber(number: Option<string>)
    | ChatId(id: Option<nat>)

  /** One transport call and whether it returned normally. */
  datatype Attempt = Attempt(channel: Channel, destination: Destination, ok: bool)

  /** What a dispatch does, in order: create the record, call a transport, save the record. */
  datatype Event =
    | Created(id: nat, record: Notification)
    | Attempted(attempt: Attempt, text: string)
    | Saved(id: nat, record: Notification)

  /** For each channel, whether its transport call returns normally. */
  datatype Delivery = Delivery(email: bool, sms: bool, telegram: bool)

  // ---------------------------------------------------------------------
  // The specification: a dispatch as a plan of attempts
  // ---------------------------------------------------------------------

  /** The record after one try block. */
  function After(n: Notification, a: Attempt): Notification {
    if a.ok then Mark(n, a.channel) else n
  }

  /** The record after a whole plan of try blocks. */
  function Outcome(n: Notification, plan: seq<Attempt>): Notification
    decreases plan
  {
    if plan == [] then n else Outcome(After(n, plan[0]), plan[1..])
  }

  /**
   * The events of a plan run on record `id` whose state is n: every attempt
   * is made, and each one that returns normally is followed by a save of the
   * record with that channel's flag raised.
   */
  function Run(id: nat, n: Notification, text: string, plan: seq<Attempt>): seq<Event>
    decreases plan
  {
    if plan == [] then []
    else
      var a := plan[0];
      [Attempted(a, text)] + (if a.ok then [Saved(id, Mark(n, a.channel))] else [])
      + Run(id, After(n, a), text, plan[1..])
  }

  /** The transport calls in a trace, in order. */
  function Attempts(ev: seq<Event>): seq<Attempt> {
    if ev == [] then []
    else (if ev[0].Attempted? then [ev[0].attempt] else []) + Attempts(ev[1..])
  }

  /** The stored row after a trace of saves, starting from the row as created. */
  function Persisted(n: Notification, ev: seq<Event>): Notification
    decreases ev
  {
    if ev == [] then n
    else Persisted(if ev[0].Saved? then ev[0].record else n, ev[1..])
  }

  /** `send_all_notification`: email to the address on file (even an empty one), then SMS, then Telegram. */
  function AllChannelsPlan(u: User, d: Delivery): seq<Attempt> {
    [ Attempt(Email, EmailAddress(u.email), d.email),
      Attempt(Sms, PhoneNumber(u.phoneNumber), d.sms),
      Attempt(Telegram, ChatId(u.telegramId), d.telegram) ]
  }

  /** `send_email_notification`: no call at all when the user has no email address. */
  function EmailPlan(u: User, ok: bool): seq<Attempt> {
    if u.email != "" then [Attempt(Email, EmailAddress(u.email), ok)] else []
  }

  function SmsPlan(u: User, ok: bool): seq<Attempt> {
    [Attempt(Sms, PhoneNumber(u.phoneNumber), ok)]
  }

  function TelegramPlan(u: User, ok: bool): seq<Attempt> {
    [Attempt(Telegram, ChatId(u.telegramId), ok)]
  }

  // ---------------------------------------------------------------------
  // Properties of the specification
  // ---------------------------------------------------------------------

  lemma {:induction false} AttemptsAppend(a: seq<Event>, b: seq<Event>)
    ensures Attempts(a + b) == Attempts(a) + Attempts(b)
  {
    if a != [] {
      assert (a + b)[1..] == a[1..] + b;
      AttemptsAppend(a[1..], b);
    } else {
      assert a + b == b;
    }
  }

  /** Failure isolation: every planned call is made, in plan order, whatever the earlier calls did. */
  lemma {:induction false} RunAttemptsFollowPlan(id: nat, n: Notification, text: string, plan: seq<Attempt>)
    ensures Attempts(Run(id, n, text, plan)) == plan
    decreases plan
  {
    if plan != [] {
      var a := plan[0];
      var head := [Attempted(a, text)] + (if a.ok then [Saved(id, Mark(n, a.channel))] else []);
      var rest := Run(id, After(n, a), text, plan[1..]);
      AttemptsAppend(head, rest);
      RunAttemptsFollowPlan(id, After(n, a), text, plan[1..]);
      assert Attempts(head) == [a] by {
        if a.ok { assert head[1..] == [Saved(id, Mark(n, a.channel))]; }
      }
      assert plan == [a] + plan[1..];
    }
  }

  /** A run creates no record: the one Created event of a dispatch is the one before its run. */
  lemma {:induction false} RunCreatesNothing(id: nat, n: Notification, text: string, plan: seq<Attempt>)
    ensures forall k :: 0 <= k < |Run(id, n, text, plan)| ==> !Run(id, n, text, plan)[k].Created?
    decreases plan
  {
    if plan != [] {
      var a := plan[0];
      var head := [Attempted(a, text)] + (if a.ok then [Saved(id, Mark(n, a.channel))] else []);
      var rest := Run(id, After(n, a), text, plan[1..]);
      RunCreatesNothing(id, After(n, a), text, plan[1..]);
      var ev: seq<Event> := head + rest;
      assert Run(id, n, text, plan) == ev;
      forall k | 0 <= k < |ev| ensures !ev[k].Created? {
        if k >= |head| { assert ev[k] == rest[k - |head|]; }
      }
    }
  }

  /** In ev, every save comes right after a call that returned normally, is of record id, and stores that channel's flag raised. */
  predicate SavesFollowSuccess(id: nat, ev: seq<Event>) {
    forall k :: 0 <= k < |ev| && ev[k].Saved? ==>
      && 0 < k && ev[k - 1].Attempted? && ev[k - 1].attempt.ok
      && ev[k].id == id && Sent(ev[k].record, ev[k - 1].attempt.channel)
  }

  /** A run saves only after a call that returned normally. */
  lemma {:induction false} RunSavesFollowSuccess(id: nat, n: Notification, text: string, plan: seq<Attempt>)
    ensures SavesFollowSuccess(id, Run(id, n, text, plan))
    decreases plan
  {
    if plan != [] {
      var a := plan[0];
      var head := [Attempted(a, text)] + (if a.ok then [Saved(id, Mark(n, a.channel))] else []);
      var rest := Run(id, After(n, a), text, plan[1..]);
      RunSavesFollowSuccess(id, After(n, a), text, plan[1..]);
      var ev := head + rest;
      assert ev == Run(id, n, text, plan);
      forall k | 0 <= k < |ev| && ev[k].Saved?
        ensures && 0 < k && ev[k - 1].Attempted? && ev[k - 1].attempt.ok
                && ev[k].id == id && Sent(ev[k].record, ev[k - 1].attempt.channel)
      {
        assert |head| == if a.ok then 2 else 1;
        if k < |head| {
          assert k == 1 && a.ok;
          assert ev[k] == Saved(id, Mark(n, a.channel)) && ev[k - 1] == Attempted(a, text);
          assert Sent(Mark(n, a.channel), a.channel);
        } else {
          var j := k - |head|;
          assert ev[k] == rest[j];
          assert rest[j].Saved?;
          assert 0 < j && rest[j - 1].Attempted? && rest[j - 1].attempt.ok;
          assert rest[j].id == id && Sent(rest[j].record, rest[j - 1].attempt.channel);
          assert ev[k - 1] == rest[j - 1];
        }
      }
    }
  }

  /** The final record is a later state of the created one: same recipient, message and time, no flag lowered. */
  lemma {:induction false} OutcomeBelow(n: Notification, plan: seq<Attempt>)
    ensures Below(n, Outcome(n, plan))
    decreases plan
  {
    if plan != [] {
      OutcomeBelow(After(n, plan[0]), plan[1..]);
    }
  }

  /** Every record saved in ev lies between n and m. */
  predicate SavesBetween(n: Notification, m: Notification, ev: seq<Event>) {
    forall i :: 0 <= i < |ev| && ev[i].Saved? ==> Below(n, ev[i].record) && Below(ev[i].record, m)
  }

  /** Each record saved in ev is below every record saved after it. */
  predicate SavesMonotone(ev: seq<Event>) {
    forall i, j :: 0 <= i < j < |ev| && ev[i].Saved? && ev[j].Saved? ==> Below(ev[i].record, ev[j].record)
  }

  /**
   * Flags only go up: along the trace, each saved state is below every later
   * one, and all of them lie between the created record and the final one.
   * Recipient, message and creation time are never reassigned.
   */
  lemma {:induction false} RunMonotone(id: nat, n: Notification, text: string, plan: seq<Attempt>)
    ensures SavesBetween(n, Outcome(n, plan), Run(id, n, text, plan))
    ensures SavesMonotone(Run(id, n, text, plan))
    decreases plan
  {
    if plan != [] {
      var a := plan[0];
      var n' := After(n, a);
      var head := [Attempted(a, text)] + (if a.ok then [Saved(id, Mark(n, a.channel))] else []);
      var rest := Run(id, n', text, plan[1..]);
      RunMonotone(id, n', text, plan[1..]);
      OutcomeBelow(n', plan[1..]);
      var ev := head + rest;
      assert ev == Run(id, n, text, plan);
      assert Below(n, n');
      assert Outcome(n, plan) == Outcome(n', plan[1..]);
      assert |head| == if a.ok then 2 else 1;
      forall i | 0 <= i < |ev| && ev[i].Saved?
        ensures Below(n, ev[i].record) && Below(ev[i].record, Outcome(n, plan))
      {
        if i >= |head| {
          assert ev[i] == rest[i - |head|];
        } else {
          assert i == 1 && a.ok && ev[i] == Saved(id, n');
        }
      }
      forall i, j | 0 <= i < j < |ev| && ev[i].Saved? && ev[j].Saved?
        ensures Below(ev[i].record, ev[j].record)
      {
        if j < |head| {
          assert false;
        }
        assert ev[j] == rest[j - |head|];
        if i >= |head| {
          assert ev[i] == rest[i - |head|];
        } else {
          assert i == 1 && a.ok && ev[i] == Saved(id, n');
        }
      }
    }
  }

  lemma {:induction false} PersistedAppend(n: Notification, a: seq<Event>, b: seq<Event>)
    ensures Persisted(n, a + b) == Persisted(Persisted(n, a), b)
    decreases a
  {
    if a != [] {
      assert (a + b)[1..] == a[1..] + b;
      PersistedAppend(if a[0].Saved? then a[0].record else n, a[1..], b);
    } else {
      assert a + b == b;
    }
  }

  /** Saves are not batched: replaying the saves of a run gives exactly the final record. */
  lemma {:induction false} RunPersistsOutcome(id: nat, n: Notification, text: string, plan: seq<Attempt>)
    ensures Persisted(n, Run(id, n, text, plan)) == Outcome(n, plan)
    decreases plan
  {
    if plan != [] {
      var a := plan[0];
      var head := [Attempted(a, text)] + (if a.ok then [Saved(id, Mark(n, a.channel))] else []);
      var rest := Run(id, After(n, a), text, plan[1..]);
      PersistedAppend(n, head, rest);
      assert Persisted(n, head) == After(n, a) by {
        if a.ok {
          assert head == [Attempted(a, text), Saved(id, Mark(n, a.channel))];
          assert head[1..] == [Saved(id, Mark(n, a.channel))];
          assert head[1..][1..] == [];
          assert Persisted(n, head) == Persisted(n, head[1..]);
          assert Persisted(n, head[1..]) == Persisted(Mark(n, a.channel), []);
        } else {
          assert head == [Attempted(a, text)];
          assert head[1..] == [];
          assert Persisted(n, head) == Persisted(n, []);
        }
      }
      RunPersistsOutcome(id, After(n, a), text, plan[1..]);
    }
  }

  /**
   * Progress is recorded as it is made: after the first j calls of a plan,
   * the events so far are those j calls with their saves, and replaying
   * those saves already gives the record as it stands after j calls. The
   * rest of the run continues from that record.
   */
  lemma RunRecordsPartialProgress(id: nat, n: Notification, text: string, plan: seq<Attempt>, j: nat)
    requires j <= |plan|
    ensures var done := Run(id, n, text, plan[..j]);
      Run(id, n, text, plan) == done + Run(id, Outcome(n, plan[..j]), text, plan[j..])
      && Attempts(done) == plan[..j]
      && Persisted(n, done) == Outcome(n, plan[..j])
  {
    assert plan == plan[..j] + plan[j..];
    RunAppend(id, n, text, plan[..j], plan[j..]);
    RunAttemptsFollowPlan(id, n, text, plan[..j]);
    RunPersistsOutcome(id, n, text, plan[..j]);
  }

  /** A channel's flag is up at the end exactly when it was up before or some call on it returned normally. */
  lemma {:induction false} OutcomeSent(n: Notification, plan: seq<Attempt>, c: Channel)
    ensures Sent(Outcome(n, plan), c) <==>
      Sent(n, c) || exists k :: 0 <= k < |plan| && plan[k].channel == c && plan[k].ok
    decreases plan
  {
    if plan != [] {
      OutcomeSent(After(n, plan[0]), plan[1..], c);
      if exists k :: 0 <= k < |plan| && plan[k].channel == c && plan[k].ok {
        var k :| 0 <= k < |plan| && plan[k].channel == c && plan[k].ok;
        if k > 0 { assert plan[1..][k - 1] == plan[k]; }
      }
      if exists k :: 0 <= k < |plan[1..]| && plan[1..][k].channel == c && plan[1..][k].ok {
        var k :| 0 <= k < |plan[1..]| && plan[1..][k].channel == c && plan[1..][k].ok;
        assert plan[k + 1] == plan[1..][k];
      }
    }
  }

  lemma {:induction false} RunAppend(id: nat, n: Notification, text: string, p: seq<Attempt>, q: seq<Attempt>)
    ensures Run(id, n, text, p + q) == Run(id, n, text, p) + Run(id, Outcome(n, p), text, q)
    ensures Outcome(n, p + q) == Outcome(Outcome(n, p), q)
    decreases p
  {
    if p != [] {
      assert (p + q)[0] == p[0];
      assert (p + q)[1..] == p[1..] + q;
      RunAppend(id, After(n, p[0]), text, p[1..], q);
    } else {
      assert p + q == q;
    }
  }

  /** Three try blocks written one after another run the three-attempt plan. */
  lemma RunThree(id: nat, n: Notification, text: string, a: Attempt, b: Attempt, c: Attempt)
    ensures Run(id, n, text, [a, b, c])
      == Run(id, n, text, [a]) + Run(id, After(n, a), text, [b]) + Run(id, After(After(n, a), b), text, [c])
    ensures Outcome(n, [a, b, c]) == After(After(After(n, a), b), c)
  {
    RunAppend(id, n, text, [a], [b, c]);
    RunAppend(id, After(n, a), text, [b], [c]);
    assert [a, b, c] == [a] + [b, c];
    assert [b, c] == [b] + [c];
  }

  /**
   * The full dispatch's flags are exactly the three transport outcomes, and
   * it makes all three calls, email first, even to an empty address.
   */
  lemma AllChannelsOutcome(id: nat, n: Notification, text: string, u: User, d: Delivery)
    requires !Sent(n, Email) && !Sent(n, Sms) && !Sent(n, Telegram)
    ensures var r := Outcome(n, AllChannelsPlan(u, d));
      r.emailSent == d.email && r.smsSent == d.sms && r.telegramSent == d.telegram
    ensures Attempts(Run(id, n, text, AllChannelsPlan(u, d))) ==
      [ Attempt(Email, EmailAddress(u.email), d.email),
        Attempt(Sms, PhoneNumber(u.phoneNumber), d.sms),
        Attempt(Telegram, ChatId(u.telegramId), d.telegram) ]
  {
    var plan := AllChannelsPlan(u, d);
    RunAttemptsFollowPlan(id, n, text, plan);
    OutcomeSent(n, plan, Email);
    OutcomeSent(n, plan, Sms);
    OutcomeSent(n, plan, Telegram);
    assert plan[0].channel == Email && plan[1].channel == Sms && plan[2].channel == Telegram;
  }

  /** A one-channel plan can raise only its own flag, and raises it exactly when the call returns normally. */
  lemma SingleChannelOutcome(n: Notification, a: Attempt, c: Channel)
    ensures Sent(Outcome(n, [a]), c) == (Sent(n, c) || (a.channel == c && a.ok))
  {
  }

  // ---------------------------------------------------------------------
  // The dispatcher
  // ---------------------------------------------------------------------

  class Dispatcher {
    /** The notification table; a record's id is its position. */
    var table: seq<Notification>
    /** Everything the dispatcher has done, in order. */
    var trace: seq<Event>

    constructor ()
      ensures table == [] && trace == []
    {
      table := [];
      trace := [];
    }

    /** `Notification.objects.create`: a new row with the defaults. */
    method Create(user: nat, message: string, now: int) returns (id: nat, n: Notification)
      modifies this
      ensures id == |old(table)| && n == NewNotification(user, message, now)
      ensures table == old(table) + [n] && trace == old(trace) + [Created(id, n)]
    {
      id := |table|;
      n := NewNotification(user, message, now);
      table := table + [n];
      trace := trace + [Created(id, n)];
    }

    /** `notification.save()`: the stored row becomes the in-memory record. */
    method Save(id: nat, n: Notification)
      requires id < |table|
      modifies this
      ensures table == old(table)[id := n] && trace == old(trace) + [Saved(id, n)]
    {
      table := table[id := n];
      trace := trace + [Saved(id, n)];
    }

    /** One try block: make the call; if it returns normally raise the flag and save, otherwise log and go on. */
    method TryChannel(id: nat, n: Notification, a: Attempt, text: string) returns (m: Notification)
      requires id < |table| && table[id] == n
      modifies this
      ensures m == After(n, a) && table == old(table)[id := m]
      ensures trace == old(trace) + Run(id, n, text, [a])
    {
      trace := trace + [Attempted(a, text)];
      m := n;
      if a.ok {
        m := Mark(n, a.channel);
        Save(id, m);
      }
    }

    /** `send_all_notification`: one record, then the email, SMS and Telegram try blocks in that order. */
    method SendAllNotification(users: UserTable, uid: nat, message: string, now: int, delivery: Delivery)
      requires uid < |users.rows|
      modifies this
      ensures var n0 := NewNotification(uid, message, now);
        var plan := AllChannelsPlan(users.rows[uid], delivery);
        && table == old(table) + [Outcome(n0, plan)]
        && trace == old(trace) + [Created(|old(table)|, n0)] + Run(|old(table)|, n0, message, plan)
      ensures var r := table[|old(table)|]; r.user == uid && r.message == message && r.dateAdd == now
      ensures var r := table[|old(table)|];
        r.emailSent == delivery.email && r.smsSent == delivery.sms && r.telegramSent == delivery.telegram
    {
      var u := users.rows[uid];
      var email := Attempt(Email, EmailAddress(u.email), delivery.email);
      var sms := Attempt(Sms, PhoneNumber(u.phoneNumber), delivery.sms);
      var telegram := Attempt(Telegram, ChatId(u.telegramId), delivery.telegram);
      var id, n0 := Create(uid, message, now);
      ghost var created := trace;
      var n1 := TryChannel(id, n0, email, message);
      var n2 := TryChannel(id, n1, sms, message);
      var n3 := TryChannel(id, n2, telegram, message);
      assert table == old(table) + [n3];
      RunThree(id, n0, message, email, sms, telegram);
      assert trace == created + Run(id, n0, message, [email, sms, telegram]);
      assert AllChannelsPlan(u, delivery) == [email, sms, telegram];
      AllChannelsOutcome(id, n0, message, u, delivery);
      OutcomeBelow(n0, AllChannelsPlan(u, delivery));
    }

    /** `send_sms_notification`: one record, then the SMS try block only. */
    method SendSmsNotification(users: UserTable, uid: nat, message: string, now: int, delivered: bool)
      requires uid < |users.rows|
      modifies this
      ensures var n0 := NewNotification(uid, message, now);
        var plan := SmsPlan(users.rows[uid], delivered);
        && table == old(table) + [Outcome(n0, plan)]
        && trace == old(trace) + [Created(|old(table)|, n0)] + Run(|old(table)|, n0, message, plan)
      ensures var r := table[|old(table)|]; r.user == uid && r.message == message && r.dateAdd == now
      ensures var r := table[|old(table)|];
        r.smsSent == delivered && !r.emailSent && !r.telegramSent
    {
      var plan := SmsPlan(users.rows[uid], delivered);
      var id, n0 := Create(uid, message, now);
      var n1 := TryChannel(id, n0, plan[0], message);
      assert plan == [plan[0]];
      OutcomeBelow(n0, plan);
    }

    /** `send_email_notification`: one record, then the email try block, which sends nothing when there is no address. */
    method SendEmailNotification(users: UserTable, uid: nat, message: string, now: int, delivered: bool)
      requires uid < |users.rows|
      modifies this
      ensures var n0 := NewNotification(uid, message, now);
        var plan := EmailPlan(users.rows[uid], delivered);
        && table == old(table) + [Outcome(n0, plan)]
        && trace == old(trace) + [Created(|old(table)|, n0)] + Run(|old(table)|, n0, message, plan)
      ensures var r := table[|old(table)|]; r.user == uid && r.message == message && r.dateAdd == now
      ensures var r := table[|old(table)|];
        r.emailSent == (users.rows[uid].email != "" && delivered) && !r.smsSent && !r.telegramSent
      ensures users.rows[uid].email == "" ==> trace == old(trace) + [Created(|old(table)|, NewNotification(uid, message, now))]
    {
      var u := users.rows[uid];
      var plan := EmailPlan(u, delivered);
      var id, n0 := Create(uid, message, now);
      if u.email != "" {
        var n1 := TryChannel(id, n0, plan[0], message);
        assert plan == [plan[0]];
        OutcomeBelow(n0, plan);
      } else {
        assert plan == [];
      }
    }

    /** `send_telegram_notification`: one record, then the Telegram try block only. */
    method SendTelegramNotification(users: UserTable, uid: nat, message: string, now: int, delivered: bool)
      requires uid < |users.rows|
      modifies this
      ensures var n0 := NewNotification(uid, message, now);
        var plan := TelegramPlan(users.rows[uid], delivered);
        && table == old(table) + [Outcome(n0, plan)]
        && trace == old(trace) + [Created(|old(table)|, n0)] + Run(|old(table)|, n0, message, plan)
      ensures var r := table[|old(table)|]; r.user == uid && r.message == message && r.dateAdd == now
      ensures var r := table[|old(table)|];
        r.telegramSent == delivered && !r.emailSent && !r.smsSent
    {
      var plan := TelegramPlan(users.rows[uid], delivered);
      var id, n0 := Create(uid, message, now);
      var n1 := TryChannel(id, n0, plan[0], message);
      assert plan == [plan[0]];
      OutcomeBelow(n0, plan);
    }
  }
}
