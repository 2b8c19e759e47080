/**
 * The records the bot keeps for every chat, and how one is built from an
 * incoming text message (telegram_bot.py, `save_message`).
 */
module Messages {

  datatype Option<T> = None | Some(value: T)

  type Hour = h: nat | h < 24
  type Minute = m: nat | m < 60

  /** The wall-clock time at which a message was saved. Only the hour and the
      minute are ever read back (the transcript shows `HH:MM`). */
  datatype Timestamp = Timestamp(hour: Hour, minute: Minute)

  /** The sender of a message as Telegram describes it. `username` is optional
      on Telegram; `Some("")` stands for a username that is present but empty. */
  datatype User = User(id: int, username: Option<string>, firstName: string)

  /** One saved message; never changed after it is created. */
  datatype MessageRecord = MessageRecord(
    timestamp: Timestamp,
    userId: int,
    username: string,
    text: string)

  /** Python truthiness of `user.username`: absent (None) and "" are both false. */
  predicate HasUsername(user: User) {
    user.username.Some? && user.username.value != ""
  }

  /** The record `save_message` builds for `text` sent by `user` at time `now`:
      the id and the text are copied, and the shown name is the username when
      it is a non-empty string and the first name otherwise. */
  function MakeRecord(user: User, text: string, now: Timestamp): (r: MessageRecord)
    ensures r.timestamp == now && r.userId == user.id && r.text == text
    ensures HasUsername(user) ==> Some(r.username) == user.username
    ensures !HasUsername(user) ==> r.username == user.firstName
    ensures r.username == "" <==> !HasUsername(user) && user.firstName == ""
  {
    var name := if HasUsername(user) then user.username.value else user.firstName;
    MessageRecord(now, user.id, name, text)
  }
}
