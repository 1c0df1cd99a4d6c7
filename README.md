# Group cleanup bot: a verified model of its state machine

`bot.py` is a Telegram group-moderation bot. Under the Telegram and scheduler
plumbing it keeps two process-wide globals:

- `MESSAGES`, a dictionary from chat id to the list of message ids tracked in that chat;
- `ENABLED_GROUPS`, the set of chats where cleanup is switched on.

Four handlers act on these globals:

- `enable_cleanup` / `disable_cleanup` run only for an administrator or creator of the chat.
- `handle_message` does one of three things with each inbound update. It ignores
  updates that carry no message, messages from bots, messages whose author lookup
  fails, and non-admin messages in chats that are not enabled. It pins any message
  an admin wrote, whether or not the chat is enabled. It tracks every other
  message by appending the message id to that chat's list.
- `daily_cleanup` is the daily sweep. For each chat with a list, in dictionary
  order, that is currently enabled, it deletes every tracked id in list order and
  then posts one announcement. At the end it empties the whole dictionary, so the
  lists of disabled chats are dropped too.

The model is one Dafny project in six modules:

- `Wrappers` (`wrappers.dfy`): `Option`.
- `Telegram` (`telegram.dfy`):
  - chat and message ids;
  - a member status, kept as the platform's status string;
  - the platform calls the bot makes (`Call`);
  - the attempted-call record `Event(call, ok)`;
  - `Attempts`, which turns a list of calls into events given the platform's answers.
- `Tracking` (`tracking.dfy`): `MESSAGES` as a Python dict in insertion order.
  - `chats` is the key order (order of first capture) and `ids` is the contents.
  - `Append` is the handler's set-default-then-append on that dictionary.
- `Policy` (`policy.dfy`): the role predicate `IsAdmin` and the handler's decision `Decide`.
- `Sweep` (`sweep.dfy`): `Plan`, the list of calls one sweep issues, and the lemmas about it.
- `Bot` (`bot.dfy`): the class `CleanupBot`.
  - Its fields are the two globals (`messages`, `enabledGroups`) and `log`, the
    platform calls attempted so far.
  - One method per handler.
  - Three client methods that combine handlers.

Inputs the model takes instead of I/O:

- `lookup: Option<Status>` is the answer of the chat-member lookup. `None` means the lookup raised.
- `pinFails` and `replyFails` say whether the platform rejects that call.
- The sweep's `fails: nat -> bool` says whether the platform rejects the k-th call of that sweep.

Every attempted call goes into `log` with its outcome. The calls that are issued
never depend on the outcomes, which is how the model shows that the swallowed
exceptions (`except: pass`) leave control flow unchanged.

The model follows these facts about `bot.py`:

- `bot.py` has no timestamps, no age check and no duplicate suppression, and keeps
  everything in memory.
- `bot.py` skips disabled chats at sweep time and discards their lists unswept.

## Model

| member | source | states |
|---|---|---|
| `Policy.IsAdmin` | bot.py:36-41 | a status is privileged exactly when it is "administrator" or "creator" |
| `Policy.Decide` | bot.py:57-86 | the decision is Ignore for an update without a message, for a bot author (whatever the lookup says) and for a failed lookup. It is Pin exactly for a non-bot author with an admin status, whether or not the chat is enabled. It is Track exactly for a non-bot, non-admin author in an enabled chat. A pin or track concerns the message's own chat and id |
| `Policy.AdminPinsWhetherOrNotEnabled` | bot.py:74-83 | an admin message gets the same decision (a pin) under any set of enabled chats |
| `Tracking.Append` | bot.py:86 | the store stays well formed. The chat's list gains the id at its end and is created if absent. Every other chat's list is unchanged. A new chat goes last in key order, and an existing chat keeps the key order as it was |
| `Bot.CleanupBot.constructor` | bot.py:25-26 | the bot starts with no tracked messages, no enabled chats and no calls |
| `Bot.CleanupBot.EnableCleanup` | bot.py:44-48 | a failed lookup raises and changes nothing. A non-admin changes nothing and gets no reply. An admin adds the chat, and only that chat, and one confirmation reply is attempted. If the reply fails, the handler raises after the change. Tracked messages are never touched |
| `Bot.CleanupBot.DisableCleanup` | bot.py:50-54 | the same as enable, removing the chat and replying with the disabled notice |
| `Bot.CleanupBot.HandleMessage` | bot.py:57-86 | enabled chats never change. Ignore leaves all state and the call log unchanged. Pin attempts exactly one pin of that message and leaves the tracked messages unchanged, whether the pin succeeds or fails. Track appends the id to its chat's list and makes no call |
| `Bot.CleanupBot.DeleteTracked` | bot.py:96-100 | the inner loop attempts one delete per tracked id, in list order. Each rejected delete is recorded and then passed over |
| `Bot.CleanupBot.SweepChat` | bot.py:96-105 | one chat's deletes are followed by one announcement, which is attempted even when any of the deletes failed |
| `Bot.CleanupBot.DailyCleanup` | bot.py:89-107 | the calls attempted are exactly `Plan` of the tracked messages and enabled chats, whatever the platform answers. The k-th call gets the k-th answer. Afterwards no messages are tracked and the enabled chats are unchanged |
| `Telegram.Attempts` | bot.py:97-105 | one event per attempted call |
| `Telegram.AttemptsSnoc` | bot.py:97-105 | attempting one more call appends exactly one event, with the platform's answer to that call |
| `Telegram.AttemptsAt` | bot.py:97-105 | the k-th event is the k-th planned call with the platform's k-th answer, so a failure never changes which calls follow |
| `Sweep.Deletes` | bot.py:96-100 | one delete per tracked id, the k-th for the k-th id |
| `Sweep.PlanOver` | bot.py:92-105 | every call of the sweep goes to a visited chat that has a list and is enabled |
| `Sweep.Plan` | bot.py:92-94 | a chat that is not enabled, or has no list, gets no call |
| `Sweep.PlanOverStep` | bot.py:92-105 | visiting one more chat appends that chat's deletes and announcement if the chat is enabled, and nothing otherwise |
| `Sweep.PlanOverForChat` | bot.py:92-105 | with a duplicate-free key order, the calls to any one chat are its deletes and then its announcement if it is enabled with a list, and nothing otherwise |
| `Sweep.SweepForChat` | bot.py:92-105 | for every chat, the sweep's calls to it are one delete per tracked id in list order and then exactly one announcement if the chat is enabled and has a list, and none otherwise. An announced chat always had at least one delete |
| `Sweep.SweepAnnouncesOnce` | bot.py:102-105 | the sweep sends exactly one announcement to each enabled chat with a list and none to any other chat |
| `Sweep.PlanOverFollowsChatOrder` | bot.py:92 | chats are visited in key order, that is, in order of first capture. Every call to an earlier chat comes before every call to a later one |
| `Sweep.TrackedMessageIsSwept` | bot.py:86-105 | a message tracked in a chat still enabled at sweep time is deleted after that chat's earlier messages, right before the chat's announcement |
| `Bot.EnableTwice` | bot.py:47 | enabling is idempotent: two admin enables, whatever the platform answers to either reply, leave the enabled chats as one does |
| `Bot.EnableThenDisable` | bot.py:47-53 | an admin disable undoes an admin enable of a chat that was not enabled, whatever the platform answers to either reply |
| `Bot.DisableThenSweep` | bot.py:50-107 | lists tracked in a chat that is disabled before the sweep, whether or not the disable's reply is rejected, are dropped with no call to that chat |

## Left out

- The Telegram API (`get_chat_member`, `msg.pin`, `delete_message`, `send_message`, `reply_text`) is modelled only as inputs (status lookup, whether each call fails) and as log events.
- The contents of `ANNOUNCEMENT_TEXT` and of the two confirmation replies are left out: they are fixed strings with no logic, so they are the constructors `SendAnnouncement` and `ReplyText(chat, EnabledNotice | DisabledNotice)`.
- `disable_notification=True` on the pin is part of what `PinMessage` stands for. It is not a separate flag.
- Scheduling (the APScheduler cron job at midnight UTC), `ApplicationBuilder`, handler registration and polling are left out: they are I/O plumbing. The model's sweep runs when `DailyCleanup` is called.
- Logging setup and reading `BOT_TOKEN` from the environment (with the start-up failure when it is missing) are left out as configuration bootstrap.
- asyncio interleaving at `await` points is not modelled. Handlers and the sweep run one at a time, so the sweep's snapshot `list(MESSAGES.items())` is the dictionary itself.
- `Bot.CleanupBot.HandleMessage` assumes every message has an author (`msg.from_user`). A message without one would raise at bot.py:63, and that path is not modelled.
- `Bot.CleanupBot.EnableCleanup` and `Bot.CleanupBot.DisableCleanup` assume the command update carries a message for the reply. An update without one raises after the change to the enabled set without attempting a reply; the model does not take this input, and its nearest case, a rejected reply, records one attempted reply.
- User ids are not modelled, because the status lookup that uses them is an input.
