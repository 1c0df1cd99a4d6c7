/**
 * The bot's view of the chat platform: identifiers, member statuses and the
 * platform calls the bot issues. Every call may fail; a failure is recorded
 * in the call's event and is otherwise swallowed by the caller.
 */
module Telegram {

  type ChatId = int
  type MessageId = int

  /** A chat member status as the platform reports it ("member", "administrator", ...). */
  type Status = string

  /** The two confirmations the enable and disable commands reply with. */
  datatype Notice = EnabledNotice | DisabledNotice

  /** One request to the platform. */
  datatype Call =
    | PinMessage(chat: ChatId, message: MessageId)    // pinned silently
    | DeleteMessage(chat: ChatId, message: MessageId)
    | SendAnnouncement(chat: ChatId)                  // the fixed announcement text
    | ReplyText(chat: ChatId, notice: Notice)

  /** A call the bot attempted, and whether the platform accepted it. */
  datatype Event = Event(call: Call, ok: bool)

  /** The chat a call is addressed to. */
  function Target(c: Call): ChatId
  {
    c.chat
  }

  /**
   * The events of issuing `calls` one after another, where the platform
   * rejects the k-th of them exactly when `fails(k)`.
   */
  function Attempts(calls: seq<Call>, fails: nat -> bool): (r: seq<Event>)
    ensures |r| == |calls|
  {
    if calls == [] then []
    else Attempts(calls[..|calls| - 1], fails) + [Event(calls[|calls| - 1], !fails(|calls| - 1))]
  }

  /** Issuing one more call appends exactly one event. */
  lemma AttemptsSnoc(calls: seq<Call>, c: Call, fails: nat -> bool)
    ensures Attempts(calls + [c], fails) == Attempts(calls, fails) + [Event(c, !fails(|calls|))]
  {
    assert (calls + [c])[..|calls|] == calls;
  }

  /**
   * The k-th event is the k-th call with the platform's k-th answer: which
   * calls are issued never depends on which of them the platform rejects.
   */
  lemma {:induction false} AttemptsAt(calls: seq<Call>, fails: nat -> bool, k: nat)
    requires k < |calls|
    ensures Attempts(calls, fails)[k] == Event(calls[k], !fails(k))
  {
    if k < |calls| - 1 {
      AttemptsAt(calls[..|calls| - 1], fails, k);
    }
  }
}
