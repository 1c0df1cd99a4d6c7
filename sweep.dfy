/**
 * The daily sweep as a plan of platform calls: for every tracked chat, in
 * key order, that is enabled, one delete per tracked id in list order and
 * then one announcement. Chats that are not enabled get no call at all.
 */
module Sweep {
  import opened Telegram
  import opened Tracking

  /** One delete per id, in list order. */
  function Deletes(chat: ChatId, ids: seq<MessageId>): (r: seq<Call>)
    ensures |r| == |ids|
    ensures forall k :: 0 <= k < |ids| ==> r[k] == DeleteMessage(chat, ids[k])
  {
    if ids == [] then []
    else Deletes(chat, ids[..|ids| - 1]) + [DeleteMessage(chat, ids[|ids| - 1])]
  }

  /** Deleting one more id of the list appends its delete. */
  lemma DeletesStep(chat: ChatId, ids: seq<MessageId>, j: nat)
    requires j < |ids|
    ensures Deletes(chat, ids[..j + 1]) == Deletes(chat, ids[..j]) + [DeleteMessage(chat, ids[j])]
  {
    assert ids[..j + 1][..j] == ids[..j];
  }

  lemma DeletesSnoc(chat: ChatId, ids: seq<MessageId>, id: MessageId)
    ensures Deletes(chat, ids + [id]) + [SendAnnouncement(chat)]
      == Deletes(chat, ids) + [DeleteMessage(chat, id), SendAnnouncement(chat)]
  {
    assert (ids + [id])[..|ids|] == ids;
  }

  /** Everything the sweep asks of the platform for one enabled chat. */
  function ChatCalls(chat: ChatId, ids: seq<MessageId>): seq<Call>
  {
    Deletes(chat, ids) + [SendAnnouncement(chat)]
  }

  /** The calls issued when visiting `chats` in order; each call goes to one of them. */
  function PlanOver(chats: seq<ChatId>, ids: map<ChatId, seq<MessageId>>, enabled: set<ChatId>): (r: seq<Call>)
    ensures forall k :: 0 <= k < |r| ==> Target(r[k]) in chats && Target(r[k]) in ids && Target(r[k]) in enabled
  {
    if chats == [] then []
    else
      var c := chats[|chats| - 1];
      PlanOver(chats[..|chats| - 1], ids, enabled)
        + (if c in enabled && c in ids then ChatCalls(c, ids[c]) else [])
  }

  /**
   * The calls one sweep issues over the tracked messages `m`: a chat that is
   * not enabled, or has no entry, is never addressed.
   */
  function Plan(m: Messages, enabled: set<ChatId>): (r: seq<Call>)
    ensures forall k :: 0 <= k < |r| ==> Target(r[k]) in enabled && Target(r[k]) in m.ids
  {
    PlanOver(m.chats, m.ids, enabled)
  }

  /** Visiting one more chat appends that chat's calls, if it is enabled and tracked. */
  lemma PlanOverStep(chats: seq<ChatId>, ids: map<ChatId, seq<MessageId>>, enabled: set<ChatId>, i: nat)
    requires i < |chats|
    ensures PlanOver(chats[..i + 1], ids, enabled) == PlanOver(chats[..i], ids, enabled)
      + (if chats[i] in enabled && chats[i] in ids then ChatCalls(chats[i], ids[chats[i]]) else [])
  {
    assert chats[..i + 1][..i] == chats[..i];
  }

  /** The calls addressed to chat `c`, in their original order. */
  function ForChat(calls: seq<Call>, c: ChatId): seq<Call>
  {
    if calls == [] then []
    else (if Target(calls[0]) == c then [calls[0]] else []) + ForChat(calls[1..], c)
  }

  lemma {:induction false} ForChatConcat(a: seq<Call>, b: seq<Call>, c: ChatId)
    ensures ForChat(a + b, c) == ForChat(a, c) + ForChat(b, c)
  {
    if a == [] {
      assert a + b == b;
    } else {
      var ab, h := a + b, if Target(a[0]) == c then [a[0]] else [];
      assert ab != [] && ab[0] == a[0] && ab[1..] == a[1..] + b;
      ForChatConcat(a[1..], b, c);
      assert ForChat(ab, c) == h + ForChat(a[1..] + b, c);
      assert ForChat(a, c) == h + ForChat(a[1..], c);
      assert h + (ForChat(a[1..], c) + ForChat(b, c)) == (h + ForChat(a[1..], c)) + ForChat(b, c);
    }
  }

  lemma {:induction false} ForChatAll(calls: seq<Call>, c: ChatId)
    requires forall k :: 0 <= k < |calls| ==> Target(calls[k]) == c
    ensures ForChat(calls, c) == calls
  {
    if calls != [] {
      ForChatAll(calls[1..], c);
    }
  }

  lemma {:induction false} ForChatNone(calls: seq<Call>, c: ChatId)
    requires forall k :: 0 <= k < |calls| ==> Target(calls[k]) != c
    ensures ForChat(calls, c) == []
  {
    if calls != [] {
      ForChatNone(calls[1..], c);
    }
  }

  /** No call is lost by keeping only those to `call`'s own chat. */
  lemma {:induction false} ForChatCount(calls: seq<Call>, call: Call)
    ensures multiset(ForChat(calls, Target(call)))[call] == multiset(calls)[call]
  {
    if calls != [] {
      ForChatCount(calls[1..], call);
      assert calls == [calls[0]] + calls[1..];
    }
  }

  /** One chat's calls, seen from chat `c`: all of them if `c` is that chat, none otherwise. */
  lemma ChatCallsForChat(chat: ChatId, ids: seq<MessageId>, c: ChatId)
    ensures ForChat(ChatCalls(chat, ids), c) == if c == chat then ChatCalls(chat, ids) else []
  {
    var calls := ChatCalls(chat, ids);
    assert forall k :: 0 <= k < |calls| ==> Target(calls[k]) == chat;
    if c == chat {
      ForChatAll(calls, c);
    } else {
      ForChatNone(calls, c);
    }
  }

  lemma NoDupSplit(s: seq<ChatId>)
    requires NoDup(s) && s != []
    ensures NoDup(s[..|s| - 1]) && s[|s| - 1] !in s[..|s| - 1]
    ensures s == s[..|s| - 1] + [s[|s| - 1]]
  {
  }

  /** The projection of the plan onto one chat, proved over any duplicate-free key order. */
  lemma {:induction false} PlanOverForChat(chats: seq<ChatId>, ids: map<ChatId, seq<MessageId>>, enabled: set<ChatId>, c: ChatId)
    requires NoDup(chats)
    ensures ForChat(PlanOver(chats, ids, enabled), c)
      == if c in chats && c in enabled && c in ids then ChatCalls(c, ids[c]) else []
  {
    if chats != [] {
      var pre, last := chats[..|chats| - 1], chats[|chats| - 1];
      var tail := if last in enabled && last in ids then ChatCalls(last, ids[last]) else [];
      NoDupSplit(chats);
      PlanOverForChat(pre, ids, enabled, c);
      ForChatConcat(PlanOver(pre, ids, enabled), tail, c);
      if last in enabled && last in ids {
        ChatCallsForChat(last, ids[last], c);
      }
    }
  }

  /**
   * For every chat: an enabled chat with an entry receives one delete per
   * tracked id, in list order, and then exactly one announcement; any other
   * chat receives no call.
   */
  lemma SweepForChat(m: Messages, enabled: set<ChatId>, c: ChatId)
    requires WellFormed(m)
    ensures ForChat(Plan(m, enabled), c)
      == if c in m.ids && c in enabled then Deletes(c, m.ids[c]) + [SendAnnouncement(c)] else []
    ensures c in m.ids && c in enabled ==> |ForChat(Plan(m, enabled), c)| >= 2
  {
    PlanOverForChat(m.chats, m.ids, enabled, c);
  }

  /**
   * Capture followed by a sweep: a message tracked in a chat that is still
   * enabled at sweep time is deleted last among that chat's messages, right
   * before the chat's announcement.
   */
  lemma TrackedMessageIsSwept(m: Messages, enabled: set<ChatId>, c: ChatId, id: MessageId)
    requires WellFormed(m) && c in enabled
    ensures ForChat(Plan(Append(m, c, id), enabled), c)
      == Deletes(c, Lookup(m, c)) + [DeleteMessage(c, id), SendAnnouncement(c)]
  {
    SweepForChat(Append(m, c, id), enabled, c);
    DeletesSnoc(c, Lookup(m, c), id);
  }

  /** Exactly one announcement per enabled chat with an entry, none elsewhere. */
  lemma SweepAnnouncesOnce(m: Messages, enabled: set<ChatId>, c: ChatId)
    requires WellFormed(m)
    ensures multiset(Plan(m, enabled))[SendAnnouncement(c)]
      == if c in m.ids && c in enabled then 1 else 0
  {
    SweepForChat(m, enabled, c);
    ForChatCount(Plan(m, enabled), SendAnnouncement(c));
    if c in m.ids && c in enabled {
      var dels := Deletes(c, m.ids[c]);
      assert SendAnnouncement(c) !in dels;
      assert multiset(dels + [SendAnnouncement(c)]) == multiset(dels) + multiset{SendAnnouncement(c)};
    }
  }

  /**
   * Chats are visited in key order, i.e. in order of first capture: every
   * call to an earlier chat precedes every call to a later one.
   */
  lemma {:induction false} PlanOverFollowsChatOrder(chats: seq<ChatId>, ids: map<ChatId, seq<MessageId>>,
                                                     enabled: set<ChatId>, i: nat, j: nat, p: nat, q: nat)
    requires NoDup(chats) && i < j < |chats|
    ensures var plan := PlanOver(chats, ids, enabled);
      p < |plan| && q < |plan| && Target(plan[p]) == chats[i] && Target(plan[q]) == chats[j] ==> p < q
  {
    var pre, last := chats[..|chats| - 1], chats[|chats| - 1];
    var prePlan := PlanOver(pre, ids, enabled);
    var tail := if last in enabled && last in ids then ChatCalls(last, ids[last]) else [];
    var plan := PlanOver(chats, ids, enabled);
    if p < |plan| && q < |plan| && Target(plan[p]) == chats[i] && Target(plan[q]) == chats[j] {
      assert plan == prePlan + tail;
      assert forall k :: 0 <= k < |tail| ==> Target(tail[k]) == last;
      NoDupSplit(chats);
      if j == |chats| - 1 {
        assert chats[i] == pre[i] && chats[i] != last;
      } else {
        assert chats[i] == pre[i] && chats[j] == pre[j];
        assert chats[i] != last && chats[j] != last;
        PlanOverFollowsChatOrder(pre, ids, enabled, i, j, p, q);
      }
    }
  }
}
