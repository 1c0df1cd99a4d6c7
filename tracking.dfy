/**
 * The tracked-message store: an insertion-ordered dictionary from chat id to
 * the list of message ids captured in that chat. `chats` is the dictionary's
 * key order (order of first capture), `ids` its contents.
 */
module Tracking {
  import opened Telegram

  datatype Messages = Messages(chats: seq<ChatId>, ids: map<ChatId, seq<MessageId>>)

  /** The empty dictionary, as at start-up and after a sweep. */
  const EMPTY: Messages := Messages([], map[])

  predicate NoDup(s: seq<ChatId>)
  {
    forall i, j :: 0 <= i < j < |s| ==> s[i] != s[j]
  }

  /**
   * Every key is listed once in the key order, the key order lists exactly
   * the keys, and no list is empty (an entry is only ever created by an append).
   */
  ghost predicate WellFormed(m: Messages)
  {
    && NoDup(m.chats)
    && (forall c :: c in m.chats <==> c in m.ids)
    && (forall c :: c in m.ids ==> m.ids[c] != [])
  }

  /** The list tracked for `c`; a chat without an entry has none. */
  function Lookup(m: Messages, c: ChatId): seq<MessageId>
  {
    if c in m.ids then m.ids[c] else []
  }

  /**
   * Capture of one message: add `id` at the end of the list of `c`,
   * creating the entry (last in key order) when `c` has none.
   */
  function Append(m: Messages, c: ChatId, id: MessageId): (r: Messages)
    requires WellFormed(m)
    ensures WellFormed(r)
    ensures c in r.ids && Lookup(r, c) == Lookup(m, c) + [id]
    ensures forall d :: d != c ==> Lookup(r, d) == Lookup(m, d)
    ensures r.ids.Keys == m.ids.Keys + {c}
    ensures c in m.ids ==> r.chats == m.chats
    ensures c !in m.ids ==> r.chats == m.chats + [c]
  {
    var chats := if c in m.ids then m.chats else m.chats + [c];
    assert c !in m.ids ==> forall i :: 0 <= i < |m.chats| ==> chats[i] != c;
    Messages(chats, m.ids[c := Lookup(m, c) + [id]])
  }
}
