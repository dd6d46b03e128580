/**
 * The delivery record of main_app: one row per dispatch, naming the
 * recipient and the message, with one delivery flag per channel and the
 * creation time. Creation times come from outside (there is no clock in
 * the model) as a plain integer.
 */
module NotificationModel {

  /** A row of the notification table. `user` is the id of the recipient's row in the user table. */
  datatype Notification = Notification(
    user: nat,
    message: string,
    emailSent: bool,
    smsSent: bool,
    telegramSent: bool,
    dateAdd: int)

  /** The three delivery channels, in the order the full dispatch tries them. */
  datatype Channel = Email | Sms | Telegram

  /** A freshly created record: the given recipient and message, stamped with the creation time, nothing sent. */
  function NewNotification(user: nat, message: string, now: int): (n: Notification)
    ensures n.user == user && n.message == message && n.dateAdd == now
    ensures !Sent(n, Email) && !Sent(n, Sms) && !Sent(n, Telegram)
  {
    Notification(user, message, false, false, false, now)
  }

  /** The delivery flag of channel c. */
  predicate Sent(n: Notification, c: Channel) {
    match c
    case Email => n.emailSent
    case Sms => n.smsSent
    case Telegram => n.telegramSent
  }

  /** The record with the flag of channel c raised. */
  function Mark(n: Notification, c: Channel): (m: Notification)
    ensures Sent(m, c)
    ensures forall d :: d != c ==> Sent(m, d) == Sent(n, d)
    ensures m.user == n.user && m.message == n.message && m.dateAdd == n.dateAdd
  {
    match c
    case Email => n.(emailSent := true)
    case Sms => n.(smsSent := true)
    case Telegram => n.(telegramSent := true)
  }

  /**
   * m is n or a later state of the same record: same recipient, message and
   * creation time, and every flag raised in n is still raised in m.
   */
  predicate Below(n: Notification, m: Notification) {
    && n.user == m.user && n.message == m.message && n.dateAdd == m.dateAdd
    && (n.emailSent ==> m.emailSent)
    && (n.smsSent ==> m.smsSent)
    && (n.telegramSent ==> m.telegramSent)
  }
}
