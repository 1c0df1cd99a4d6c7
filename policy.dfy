/**
 * The moderation policy of the message handler: what the bot does with one
 * inbound update, given the author's status lookup and the enabled chats.
 */
module Policy {
  import opened Wrappers
  import opened Telegram

  /** The statuses that count as privileged. */
  const PRIVILEGED: seq<Status> := ["administrator", "creator"]

  /** The role predicate: a status is privileged exactly when it is administrator or creator. */
  function IsAdmin(status: Status): (r: bool)
    ensures r <==> status == "administrator" || status == "creator"
  {
    status in PRIVILEGED
  }

  /** An inbound group message: its chat, its id and whether its author is a bot. */
  datatype Message = Message(chat: ChatId, id: MessageId, fromBot: bool)

  /** An update may carry no message (edited messages, other update kinds). */
  datatype Update = Update(message: Option<Message>)

  datatype Decision =
    | Ignore
    | Pin(chat: ChatId, message: MessageId)
    | Track(chat: ChatId, message: MessageId)

  /**
   * The handler's decision. `lookup` is the author's status; `None` stands for
   * a lookup that raised. The lookup is not consulted for a bot author.
   */
  function Decide(update: Update, lookup: Option<Status>, enabled: set<ChatId>): (d: Decision)
    ensures update.message.None? ==> d == Ignore
    ensures update.message.Some? && update.message.value.fromBot ==> d == Ignore
    ensures lookup.None? ==> d == Ignore
    ensures d.Pin? <==>
      update.message.Some? && !update.message.value.fromBot && lookup.Some? && IsAdmin(lookup.value)
    ensures d.Track? <==>
      update.message.Some? && !update.message.value.fromBot && lookup.Some? && !IsAdmin(lookup.value)
      && update.message.value.chat in enabled
    ensures !d.Ignore? ==>
      update.message.Some? && d.chat == update.message.value.chat && d.message == update.message.value.id
  {
    match update.message
    case None => Ignore
    case Some(msg) =>
      if msg.fromBot then Ignore
      else match lookup
        case None => Ignore
        case Some(status) =>
          if IsAdmin(status) then Pin(msg.chat, msg.id)
          else if msg.chat !in enabled then Ignore
          else Track(msg.chat, msg.id)
  }

  /**
   * Admin precedence: whether an admin message is pinned never depends on the
   * enabled chats. It follows directly from the `d.Pin?` clause of `Decide`'s contract.
   */
  lemma AdminPinsWhetherOrNotEnabled(update: Update, lookup: Option<Status>, e1: set<ChatId>, e2: set<ChatId>)
    requires Decide(update, lookup, e1).Pin?
    ensures Decide(update, lookup, e2) == Decide(update, lookup, e1)
  {
  }
}
