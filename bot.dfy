/**
 * The bot's process-wide state and its four handlers, run one at a time.
 * `messages` and `enabledGroups` are the two globals; `log` is the sequence
 * of platform calls the bot has attempted, each with the platform's answer.
 */
module Bot {
  import opened Wrappers
  import opened Telegram
  import opened Tracking
  import opened Policy
  import opened Sweep

  /** How a command handler ends: normally, or with an exception it does not catch. */
  datatype Outcome = Completed | Raised

  class CleanupBot {
    var messages: Messages
    var enabledGroups: set<ChatId>
    var log: seq<Event>

    ghost predicate Valid()
      reads this
    {
      WellFormed(messages)
    }

    constructor ()
      ensures Valid()
      ensures messages == EMPTY && enabledGroups == {} && log == []
    {
      messages := EMPTY;
      enabledGroups := {};
      log := [];
    }

    /**
     * The enable command. A status lookup that raises ends the handler with no
     * effect; a non-admin is silently refused; an admin adds the chat and is
     * sent a confirmation, whose failure escapes the handler after the change.
     */
    method EnableCleanup(chat: ChatId, lookup: Option<Status>, replyFails: bool) returns (outcome: Outcome)
      requires Valid()
      modifies this
      ensures Valid() && messages == old(messages)
      ensures lookup.None? ==> outcome == Raised && enabledGroups == old(enabledGroups) && log == old(log)
      ensures lookup.Some? && !IsAdmin(lookup.value) ==>
        outcome == Completed && enabledGroups == old(enabledGroups) && log == old(log)
      ensures lookup.Some? && IsAdmin(lookup.value) ==>
        && enabledGroups == old(enabledGroups) + {chat}
        && log == old(log) + [Event(ReplyText(chat, EnabledNotice), !replyFails)]
        && outcome == (if replyFails then Raised else Completed)
    {
      if lookup.None? {
        return Raised;
      }
      if !IsAdmin(lookup.value) {
        return Completed;
      }
      enabledGroups := enabledGroups + {chat};
      log := log + [Event(ReplyText(chat, EnabledNotice), !replyFails)];
      outcome := if replyFails then Raised else Completed;
    }

    /** The disable command: as the enable command, removing the chat instead. */
    method DisableCleanup(chat: ChatId, lookup: Option<Status>, replyFails: bool) returns (outcome: Outcome)
      requires Valid()
      modifies this
      ensures Valid() && messages == old(messages)
      ensures lookup.None? ==> outcome == Raised && enabledGroups == old(enabledGroups) && log == old(log)
      ensures lookup.Some? && !IsAdmin(lookup.value) ==>
        outcome == Completed && enabledGroups == old(enabledGroups) && log == old(log)
      ensures lookup.Some? && IsAdmin(lookup.value) ==>
        && enabledGroups == old(enabledGroups) - {chat}
        && log == old(log) + [Event(ReplyText(chat, DisabledNotice), !replyFails)]
        && outcome == (if replyFails then Raised else Completed)
    {
      if lookup.None? {
        return Raised;
      }
      if !IsAdmin(lookup.value) {
        return Completed;
      }
      enabledGroups := enabledGroups - {chat};
      log := log + [Event(ReplyText(chat, DisabledNotice), !replyFails)];
      outcome := if replyFails then Raised else Completed;
    }

    /**
     * The message handler. It never raises: a failed lookup means ignore, and
     * a failed pin is swallowed, so the state after a pin is the same either way.
     */
    method HandleMessage(update: Update, lookup: Option<Status>, pinFails: bool)
      requires Valid()
      modifies this
      ensures Valid() && enabledGroups == old(enabledGroups)
      ensures Decide(update, lookup, old(enabledGroups)).Ignore? ==>
        messages == old(messages) && log == old(log)
      ensures Decide(update, lookup, old(enabledGroups)).Pin? ==>
        && messages == old(messages)
        && log == old(log) + [Event(PinMessage(update.message.value.chat, update.message.value.id), !pinFails)]
      ensures Decide(update, lookup, old(enabledGroups)).Track? ==>
        && messages == Append(old(messages), update.message.value.chat, update.message.value.id)
        && log == old(log)
    {
      if update.message.None? {
        return;
      }
      var msg := update.message.value;
      if msg.fromBot {
        return;
      }
      if lookup.None? {
        return;
      }
      if IsAdmin(lookup.value) {
        log := log + [Event(PinMessage(msg.chat, msg.id), !pinFails)];
        return;
      }
      if msg.chat !in enabledGroups {
        return;
      }
      messages := Append(messages, msg.chat, msg.id);
    }

    /**
     * The inner loop of the sweep: one delete per tracked id of `chat`, in list
     * order. `issued` are the calls this sweep has made so far and `n` their
     * number; a rejected delete is recorded and passed over.
     */
    method DeleteTracked(chat: ChatId, ids: seq<MessageId>, fails: nat -> bool, n: nat,
                         ghost base: seq<Event>, ghost issued: seq<Call>) returns (next: nat)
      requires n == |issued| && log == base + Attempts(issued, fails)
      modifies this`log
      ensures next == |issued + Deletes(chat, ids)|
      ensures log == base + Attempts(issued + Deletes(chat, ids), fails)
    {
      next := n;
      ghost var done := issued;
      var j := 0;
      assert ids[..0] == [];
      while j < |ids|
        invariant j <= |ids|
        invariant done == issued + Deletes(chat, ids[..j])
        invariant next == |done| && log == base + Attempts(done, fails)
      {
        DeletesStep(chat, ids, j);
        AttemptsSnoc(done, DeleteMessage(chat, ids[j]), fails);
        log := log + [Event(DeleteMessage(chat, ids[j]), !fails(next))];
        done := done + [DeleteMessage(chat, ids[j])];
        next := next + 1;
        j := j + 1;
      }
      assert ids[..j] == ids;
    }

    /**
     * One enabled chat of the sweep: its deletes, then the announcement, which
     * is sent whether or not any delete was rejected.
     */
    method SweepChat(chat: ChatId, ids: seq<MessageId>, fails: nat -> bool, n: nat,
                     ghost base: seq<Event>, ghost issued: seq<Call>) returns (next: nat)
      requires n == |issued| && log == base + Attempts(issued, fails)
      modifies this`log
      ensures next == |issued + ChatCalls(chat, ids)|
      ensures log == base + Attempts(issued + ChatCalls(chat, ids), fails)
    {
      next := DeleteTracked(chat, ids, fails, n, base, issued);
      ghost var done := issued + Deletes(chat, ids);
      assert done + [SendAnnouncement(chat)] == issued + ChatCalls(chat, ids);
      AttemptsSnoc(done, SendAnnouncement(chat), fails);
      log := log + [Event(SendAnnouncement(chat), !fails(next))];
      next := next + 1;
    }

    /**
     * The daily sweep. `fails(k)` is the platform's answer to the k-th call of
     * this sweep; whatever it answers, the same calls are issued, and at the
     * end every tracked list is dropped, enabled or not.
     */
    method DailyCleanup(fails: nat -> bool)
      requires Valid()
      modifies this
      ensures Valid()
      ensures messages == EMPTY && enabledGroups == old(enabledGroups)
      ensures log == old(log) + Attempts(Plan(old(messages), old(enabledGroups)), fails)
    {
      var snapshot := messages;
      var chats, ids := snapshot.chats, snapshot.ids;
      var i := 0;
      var n := 0;
      ghost var done: seq<Call> := [];
      while i < |chats|
        invariant i <= |chats|
        invariant messages == snapshot && enabledGroups == old(enabledGroups)
        invariant done == PlanOver(chats[..i], ids, enabledGroups)
        invariant n == |done| && log == old(log) + Attempts(done, fails)
      {
        var chat := chats[i];
        PlanOverStep(chats, ids, enabledGroups, i);
        if chat in enabledGroups {
          n := SweepChat(chat, ids[chat], fails, n, old(log), done);
          done := done + ChatCalls(chat, ids[chat]);
        }
        i := i + 1;
      }
      assert chats[..i] == chats;
      messages := EMPTY;
    }
  }

  /** A repeated admin enable leaves the enabled chats as the first one left them, whatever either reply does. */
  method EnableTwice(bot: CleanupBot, chat: ChatId, status: Status, firstFails: bool, secondFails: bool)
    requires bot.Valid() && IsAdmin(status)
    modifies bot
    ensures bot.Valid() && bot.messages == old(bot.messages)
    ensures bot.enabledGroups == old(bot.enabledGroups) + {chat}
  {
    var _ := bot.EnableCleanup(chat, Some(status), firstFails);
    ghost var once := bot.enabledGroups;
    var _ := bot.EnableCleanup(chat, Some(status), secondFails);
    assert bot.enabledGroups == once;
  }

  /** An admin disable undoes an admin enable of a chat that was not enabled before, whatever either reply does. */
  method EnableThenDisable(bot: CleanupBot, chat: ChatId, status: Status, enableFails: bool, disableFails: bool)
    requires bot.Valid() && IsAdmin(status) && chat !in bot.enabledGroups
    modifies bot
    ensures bot.Valid() && bot.messages == old(bot.messages)
    ensures bot.enabledGroups == old(bot.enabledGroups)
  {
    var _ := bot.EnableCleanup(chat, Some(status), enableFails);
    var _ := bot.DisableCleanup(chat, Some(status), disableFails);
  }

  /**
   * Messages tracked in a chat that is disabled before the sweep are dropped
   * by the sweep without a single call to that chat.
   */
  method DisableThenSweep(bot: CleanupBot, chat: ChatId, status: Status, replyFails: bool, fails: nat -> bool)
    requires bot.Valid() && IsAdmin(status)
    modifies bot
    ensures bot.messages == EMPTY && chat !in bot.enabledGroups
    ensures |bot.log| > |old(bot.log)|
    ensures forall k :: |old(bot.log)| < k < |bot.log| ==> Target(bot.log[k].call) != chat
  {
    var _ := bot.DisableCleanup(chat, Some(status), replyFails);
    ghost var start := |bot.log|;
    ghost var plan := Plan(bot.messages, bot.enabledGroups);
    bot.DailyCleanup(fails);
    forall k | start <= k < |bot.log|
      ensures Target(bot.log[k].call) != chat
    {
      AttemptsAt(plan, fails, k - start);
    }
  }
}
