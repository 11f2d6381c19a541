# Telegram relay bot, modelled in Dafny

`cloud_bot.py` is a Telegram bot that relays messages between users and a
set of admins. A user's message is forwarded to the admins. The id of the
forwarded copy is remembered for 24 hours, so an admin's reply to that copy
goes back to the user. Admins can also broadcast to every known user and run
a few management commands. Underneath the HTTP plumbing sits a small,
sequential state machine. This project models that state machine and proves
properties of it.

The model has three layers.

- **`Relay`** (`relay.dfy`) states the behaviour as functions over one value,
  `State`. A `State` holds:
  - `message_mappings`, as `mappings`;
  - `admin_users` and `blocked_users`, as `admins` and `blocked`;
  - the `SelfHealing` counters;
  - whether the process has exited;
  - the sequence of outbound platform calls made so far.

  Each call is a `Send`, a `Forward`, or a `Notify` (one best-effort notice
  to every admin). An oracle `api: (nat, Action) -> Outcome` decides how the
  platform answers each call. `api(n, a)` is the outcome of the call `a` made
  as the `n`-th call of the session. So the same call can fare differently
  each time it is made, and every property holds for every sequence of
  outcomes. The outcomes are:
  - `Delivered`, with the new message id when there is one;
  - `Refused`: a status other than 200;
  - `Raised`: the request raised an exception. `handle_error` counts it, and
    the 50th such error restarts the bot.

  A restart ends the process (`os._exit`). After it no call has any effect.
- **`CloudBot`** (`bot.dfy`) is the imperative form of the source:
  - the class `SelfHealing` holds the two counters;
  - the class `Bot` holds the module-level dictionaries and sets as fields
    that its methods update in place;
  - `cleanup_mappings` keeps its `to_remove` list and its two loops,
    `forward_to_admin` its early-return loop, `broadcast_to_all_users` its
    counting loop, and `main` its poll loop.

  Every method is proved to leave the object in exactly the state the
  matching `Relay` function computes (`ensures St() == ...`).
- **Lemma modules** hold the properties proved about the `Relay` functions.
  Through the methods' postconditions these hold of the methods too:
  - `RelayLemmas`: the mapping store, forwarding, broadcast;
  - `CommandLemmas`: the admin commands;
  - `RoutingLemmas`: message routing;
  - `PollLemmas`: the poll loop and the self-healing counters.

`Text` (`text.dfy`) models the string operations the commands rely on:
- `str.split()`, with Python's whitespace set;
- `str.lower()`, as far as comparisons with ASCII verbs go;
- `int()` on one token;
- `" ".join`;
- the `/logs` excerpt.

It proves that `split()` gives back the tokens of any layout: any run of
whitespace between two tokens is one separator, and runs before and after
them are dropped. It also proves that `int(str(n)) == n`.

The model keeps the source's actual behaviour in the three places where it
differs from what the code seems to intend:
- `main` sends every text that starts with `/` to `handle_command`. So none
  of the commands that change the admin or blocked sets can be reached from
  the poll loop, and over a whole session the admin set stays the primary
  admin alone (`PollLemmas.SessionKeepsAccess`). Among the admin commands,
  only `/panel` is reachable, via `handle_command`.
- An admin's reply whose text starts with `/` is not relayed
  (`RoutingLemmas.CommandOnlyAnswers`).
- `/addadmin` does not look at the blocked set, so a user can be an admin and
  blocked at the same time (`CommandLemmas.AddAdminIgnoresBlocked`).

Environment that the model takes as parameters:

| Parameter | What it stands for |
|---|---|
| `now` | the time of one pass of the poll loop (one per fetch, shared by every update of its batch), an integer count of microseconds |
| `order` | the iteration order of a set or dict, a function from a set to a listing of it |
| `logFile` | the lines of `bot.log`, or `None` when the file is missing |
| `api` | the platform's answers, an oracle |
| `primary` | the configured primary admin id |
| `hasToken` | whether a bot token is configured |
| the `Cycle` script | what each `get_updates` call returned, and the `now` of that pass of the loop |

## Model

| member | source | states |
|---|---|---|
| Relay.Initial | cloud_bot.py:25-27 | at start-up the admin set is exactly the primary admin (empty when the id is 0), nothing is blocked or mapped, nothing has been sent, both counters are 0 and the process is up |
| CloudBot.Bot.constructor | cloud_bot.py:25-27 | the object starts in `Initial(primary)` with fresh self-healing counters at zero |
| CloudBot.SelfHealing.constructor | cloud_bot.py:72-75 | both counters start at 0 and the process is up |
| CloudBot.Bot.IsAdmin | cloud_bot.py:196-198 | the definition of `is_admin`: membership of the admin set. What is proved about that set is under `UpdateKeepsAccess`, `SessionKeepsAccess` and `AdminCommandProtects` |
| CloudBot.Bot.IsBlocked | cloud_bot.py:200-202 | the definition of `is_blocked`: membership of the blocked set. What is proved about that set is under `UpdateKeepsAccess` and `SessionKeepsAccess` |
| CloudBot.Bot.UserFromMapping | cloud_bot.py:212-215 | `get_user_from_mapping` on the object's store is `Relay.Lookup`; its behaviour after `add_mapping` is stated by `PutThenLookup` and `PutOtherKeys` |
| CloudBot.Bot.CleanupMappings | cloud_bot.py:217-227 | after the collect loop and the delete loop the store is the sweep of the old store at `now`; the sets and the outbox are unchanged |
| CloudBot.Bot.AddMapping | cloud_bot.py:204-210 | the store becomes the old store with `key ↦ (user, now)`, then swept; nothing else changes |
| Relay.Swept | cloud_bot.py:217-227 | the definition of `cleanup_mappings` on a store; its properties are `SweptExactly` and `SweptIdempotent` |
| Relay.Put | cloud_bot.py:204-210 | the definition of `add_mapping` on a store; its properties are `PutThenLookup` and `PutOtherKeys` |
| Relay.Lookup | cloud_bot.py:212-215 | the definition of `get_user_from_mapping` on a store: the entry's `user_id`, or `None` when the key is not mapped |
| RelayLemmas.SweptExactly | cloud_bot.py:217-227 | the sweep keeps exactly the entries with `created_at >= now - 24h`, each unchanged |
| RelayLemmas.SweptIdempotent | cloud_bot.py:217-227 | a second sweep at the same `now` removes nothing |
| RelayLemmas.PutThenLookup | cloud_bot.py:204-215 | right after `add_mapping(key, user)` the key looks up `user`, whatever it held before |
| RelayLemmas.PutOtherKeys | cloud_bot.py:204-227 | for any other key, `add_mapping` gives the same lookup as the sweep alone |
| CloudBot.SelfHealing.HandleError | cloud_bot.py:77-84 | counts one error; restarts exactly when the count reaches 50, and then produces the restart notice |
| CloudBot.SelfHealing.SelfRestart | cloud_bot.py:86-108 | counts one restart, produces the notice to the admins with the new count, and exits |
| CloudBot.Bot.HandleError | cloud_bot.py:77-84 | the object ends in `ErrorCounted` of its old state |
| CloudBot.Bot.SelfRestart | cloud_bot.py:86-108 | the object ends in `Restarted` of its old state: one more restart, the notice recorded, exited |
| Relay.Restarted | cloud_bot.py:86-108 | one more restart, the notice with the new count to the current admins, and the process exits; no set, mapping or error count changes |
| Relay.ErrorCounted | cloud_bot.py:77-84 | one more error; the process ends up exited iff it already was or the new count reaches 50; no set or mapping changes |
| PollLemmas.ErrorThreshold | cloud_bot.py:77-90 | the 50th error, and only it, restarts: one more restart and one notice to the admins; below it nothing else changes |
| Relay.Attempt | cloud_bot.py:114-156 | a call is answered iff the process is up and the platform returns 200 for it, with the returned message id. It changes no set or mapping. A live call adds exactly itself to the outbox and counts one error iff it raised. It exits iff it raised and that error is the 50th, and then adds one restart and the restart notice. After exit it does nothing |
| CloudBot.Bot.Call | cloud_bot.py:114-156 | the object and the reply are exactly those of `Attempt` |
| Relay.ReplyToUser | cloud_bot.py:191-194 | true iff the process is up and the send got status 200 |
| CloudBot.Bot.ReplyToUser | cloud_bot.py:191-194 | ends in the state and result of `Relay.ReplyToUser` |
| Relay.ForwardRun | cloud_bot.py:183-189 | the loop over the admins changes no set or mapping, only extends the outbox, and does nothing after exit |
| CloudBot.Bot.ForwardToAdmin | cloud_bot.py:183-189 | the early-return loop ends in the state and result of `ForwardRun` over the given admin order |
| RelayLemmas.ForwardFirstSuccess | cloud_bot.py:183-189 | while the process stays up, the result is the message id of the first delivered forward in admin order (`None` if none is delivered), and the outbox gains exactly the forwards to the admins up to and including that one |
| Relay.FirstAnswer | cloud_bot.py:183-189 | the definition of the id `forward_to_admin` returns: the answer to the first delivered forward in admin order; its property is `ForwardFirstSuccess` |
| RelayLemmas.Tries | cloud_bot.py:183-189 | the forwards of one message: one per admin in order, no more than there are admins, each forward but the last not delivered, and the last one delivered whenever the loop stopped early |
| Relay.BroadcastRun | cloud_bot.py:167-175 | the send loop changes no set or mapping, does nothing after exit, and counts at most one per recipient |
| CloudBot.Bot.BroadcastToAllUsers | cloud_bot.py:158-181 | ends in the state and count of `Broadcast`: the loop over the mapped users, then the report to the initiator |
| Relay.Broadcast | cloud_bot.py:158-181 | the loop, then the report: no set or mapping changes, the outbox only grows, and the count is at most the number of recipients |
| Relay.MappedUsers | cloud_bot.py:163-165 | the definition of the set of mapped `user_id`s, used by the broadcast and by `/status`; its property is `MappedUsersBound` |
| RelayLemmas.MappedUsersBound | cloud_bot.py:443-444 | a user is mapped iff some mapping points to it, and there are never more mapped users than mappings |
| Relay.Recipients | cloud_bot.py:167-169 | the definition of the users the broadcast loop sends to; its properties are `RecipientsMembers`, `RecipientsDistinct` and `BroadcastRecipients` |
| Relay.CountDelivered | cloud_bot.py:167-175 | `sent_count` over the platform's answers: at most one per recipient. That it is the count the loop reports is `BroadcastRunSends` and `BroadcastReports` |
| CloudBot.Bot.SendOne | cloud_bot.py:168-175 | one pass of the broadcast loop: the object ends in `Attempt`'s state for the send, and the loop over the rest of the recipients counts one less exactly when the send was answered |
| RelayLemmas.RecipientsMembers | cloud_bot.py:168-169 | a user is sent to iff it is in the iteration and is neither admin nor blocked |
| RelayLemmas.RecipientsDistinct | cloud_bot.py:162-169 | a listing without repeats gives recipients without repeats |
| RelayLemmas.BroadcastRecipients | cloud_bot.py:162-169 | the recipients are exactly the distinct mapped `user_id`s minus admins minus blocked, each once |
| RelayLemmas.BroadcastRunSends | cloud_bot.py:167-175 | while the process stays up, the loop sends the text once to each recipient in order and nothing else, and `sent_count` is the number of delivered sends |
| RelayLemmas.BroadcastReports | cloud_bot.py:158-181 | while up, the outbox gains the sends to the recipients, then one report of exactly the delivered count to the initiator |
| CloudBot.Bot.HandleAdminCommands | cloud_bot.py:229-334 | ends in the state `OnAdminCommand` computes: a non-admin sender changes nothing; otherwise the parsed command's branch runs |
| CloudBot.Bot.ExecuteIdCommand | cloud_bot.py:238-267 | the four id commands update the admin or blocked set in place as `RunIdCommand` states, then reply |
| CloudBot.Bot.Execute | cloud_bot.py:269-331 | the commands without an id run as `RunCommand` states (lists, panel, broadcast, restart, logs, invalid id, ignored text) |
| Relay.ParseAdminCommand | cloud_bot.py:234-308 | the `if`/`elif` chain of `handle_admin_commands` as a choice of command: the first token lowered is the verb, and the id verbs need an integer second token. Its properties are `ParseIdCommandText`, `ParseIdCommandLayout`, `NoCommandText` and `InvalidIdOnlyReplies` |
| Relay.OnAdminCommand | cloud_bot.py:229-334 | the definition of `handle_admin_commands`; its properties are `AdminCommandProtects` and `IgnoredCommands` |
| Relay.RunCommand | cloud_bot.py:238-331 | the branches of the command chain; its property is `RunCommandProtects` |
| Relay.RunIdCommand | cloud_bot.py:238-267 | the four id commands; their properties are `PrimaryCannotBeRemoved`, `RemoveAdminEffect`, `BlockFailsIffAdmin`, `UnblockEffect`, `AddAdminIdempotent` and `IdCommandProtects` |
| CommandLemmas.PrimaryCannotBeRemoved | cloud_bot.py:243-247 | `/removeadmin P` for the primary admin changes no set or mapping and replies "cannot remove the primary admin" |
| CommandLemmas.RemoveAdminEffect | cloud_bot.py:243-251 | `/removeadmin X` for another id removes exactly X, and replies "removed" when X was an admin and "not an admin" otherwise |
| CommandLemmas.BlockFailsIffAdmin | cloud_bot.py:253-259 | `/block X` is refused iff X is an admin; otherwise the blocked set gains X; the admin set and the store do not change |
| CommandLemmas.UnblockEffect | cloud_bot.py:261-267 | `/unblock X` removes X and replies "unblocked" when X is blocked, otherwise replies "not blocked"; admins and store unchanged |
| CommandLemmas.AddAdminIdempotent | cloud_bot.py:238-241 | `/addadmin X` inserts X into the admin set, changes no other set and no mapping, and its first call is the "added to the admins" reply to the sender; a second one changes no set |
| CommandLemmas.IdCommandProtects | cloud_bot.py:238-267 | the four id commands keep the primary admin an admin and unblocked, and never touch the store |
| CommandLemmas.RunCommandProtects | cloud_bot.py:238-328 | no branch of the command chain removes or blocks the primary admin |
| CommandLemmas.AdminCommandProtects | cloud_bot.py:229-334 | whatever the sender and the text, the primary admin stays an admin and unblocked |
| CommandLemmas.ParseIdCommandText | cloud_bot.py:234-262 | a verb followed by a printed id splits, lowers and parses as that id command with that id |
| CommandLemmas.ParseIdCommandLayout | cloud_bot.py:234-262 | a verb and a printed id, with any whitespace runs before, between and after them, parse as that id command with that id |
| CommandLemmas.IdCommandText | cloud_bot.py:234-262 | the text `verb id` is non-empty after splitting and parses as the id command for `id` |
| CommandLemmas.AddAdminIgnoresBlocked | cloud_bot.py:238-241 | `/addadmin X` for a blocked X makes X an admin and leaves it blocked |
| CommandLemmas.InvalidIdOnlyReplies | cloud_bot.py:234-331 | an id verb whose argument is not an integer changes no set or mapping, and the only call is the "invalid ID" reply |
| CommandLemmas.NoCommandText | cloud_bot.py:234-328 | an unknown verb, or an id verb or `/broadcast` with no argument, matches no branch |
| CommandLemmas.IgnoredCommands | cloud_bot.py:229-334 | a non-admin sender, an unknown verb or a missing argument leaves the state exactly as it was: no change, no reply |
| Text.Split | cloud_bot.py:234 | every token is a non-empty run without whitespace; a text that starts with a non-space character has its leading word as first token. That `split()` undoes any layout is `Text.SplitLayout` |
| Text.JoinWords | cloud_bot.py:307 | the definition of `" ".join`; its property is `SplitJoin` |
| Text.Lower | cloud_bot.py:235 | the model's `Lower` maps each character on its own and keeps the length (Python's `str.lower()` need not, as for `'İ'`); a word whose characters are already lower case is unchanged (`LowerUnchanged`) |
| Text.ParseInt | cloud_bot.py:239 | the definition of `int()` on one token; its property is `ParseIntRoundTrip` |
| Text.SplitJoin | cloud_bot.py:234-307 | splitting a space-joined list of tokens gives the tokens back |
| Text.SplitLayout | cloud_bot.py:234 | for any tokens laid out with whitespace runs (non-empty between tokens, possibly empty before and after), splitting gives the tokens back |
| Text.ParseIntRoundTrip | cloud_bot.py:239 | `int(str(n)) == n` for every integer (CPython's default limit of 4300 digits for such conversions is not modelled, see "## Left out") |
| Relay.LogReply | cloud_bot.py:315-326 | the `/logs` reply is the "not found" notice exactly when the file is missing; otherwise it is the excerpt, which starts with the heading (`LogExcerpt`) |
| Text.LogExcerpt | cloud_bot.py:319-323 | the `/logs` reply starts with the heading; it is the heading plus the last 10 lines when that fits in 4000 characters, and otherwise its first 4000 characters followed by `...` |
| CloudBot.Bot.HandleMessage | cloud_bot.py:336-394 | ends in the state `OnMessage` computes for the message |
| Relay.OnMessage | cloud_bot.py:336-394 | the definition of `handle_message`; its properties are the `RoutingLemmas` rows below |
| Relay.HasMedia | cloud_bot.py:348 | the definition of `has_media`: one of the six media keys is present in the message |
| RoutingLemmas.DiscardedMessages | cloud_bot.py:350-354 | a missing or zero sender id, a message with neither text nor media, or a blocked sender leaves the state unchanged |
| RoutingLemmas.AdminReplyGoesToMappedUser | cloud_bot.py:362-378 | an admin's reply changes no set or mapping; an unmapped reply does nothing; a mapped one makes exactly one call (a send for text, a forward for media) to the mapped user, plus at most the restart notice |
| RoutingLemmas.AdminTextIsBroadcast | cloud_bot.py:379-387 | an admin's text that is neither a reply nor a command is broadcast to the recipients and reported with the delivered count |
| RoutingLemmas.AdminMediaNotBroadcast | cloud_bot.py:385-389 | an admin's media without a reply only gets the "media broadcast unsupported" notice |
| RoutingLemmas.UserMessageForwarded | cloud_bot.py:390-394 | a user's message changes no set; a mapping from the returned id to the user is added exactly when the id is truthy; while up the id is the first delivered forward's, and the calls made are exactly the forwards to the admins in order up to and including that one (`Tries`) |
| RoutingLemmas.MessageKeepsAccess | cloud_bot.py:380-382 | a text not starting with `/` never changes the admin or blocked set |
| RoutingLemmas.MessageProtects | cloud_bot.py:336-394 | `handle_message` keeps the primary admin an admin and unblocked |
| CloudBot.Bot.HandleCommand | cloud_bot.py:397-461 | ends in the state `OnCommand` computes for the message |
| Relay.OnCommand | cloud_bot.py:397-461 | the definition of `handle_command`; its properties are `CommandReplies`, `CommandOnlyAnswers` and `PanelOnlyAnswers` |
| RoutingLemmas.CommandReplies | cloud_bot.py:397-461 | no sender or a blocked sender gets nothing; otherwise `/start` gets the welcome, `/help` the admin or the user help by the sender's role, `/status` the report of the current counts and `/panel` the panel when the sender is an admin; `/status` and `/panel` from a non-admin and every other text leave the state exactly as it was |
| RoutingLemmas.CommandOnlyAnswers | cloud_bot.py:397-461 | a command changes no set or mapping, and every call it makes is to its sender (or the restart notice) |
| RoutingLemmas.PanelOnlyAnswers | cloud_bot.py:280-304 | `/panel` from an admin only sends the panel text to that admin |
| RoutingLemmas.SlashUpdateIsCommand | cloud_bot.py:544-551 | an update whose text starts with `/` is handled by `handle_command` alone, and changes no set or mapping |
| CloudBot.Bot.HandleUpdate | cloud_bot.py:544-551 | ends in the state `OnUpdate` computes |
| Relay.OnUpdate | cloud_bot.py:544-551 | the definition of one update's dispatch; its properties are `SlashUpdateIsCommand` and `UpdateKeepsAccess` |
| RoutingLemmas.UpdateKeepsAccess | cloud_bot.py:544-551 | no update handled by `main` changes the admin or the blocked set |
| RoutingLemmas.RelayRoundTrip | cloud_bot.py:336-394 | with admin 999, user 111's message forwarded as 555 is mapped to 111, and 999's reply to 555 reaches 111 with no new mapping |
| Relay.NextOffset | cloud_bot.py:553 | the offset never decreases, passes `update_id` when there is one, and is then either the old offset or `update_id + 1` (so it never skips an id); it stays as it was when the update has no id |
| Relay.OnBatch | cloud_bot.py:540-557 | the batch loop never lowers the offset, and does nothing once the process has exited |
| PollLemmas.BatchCoversIds | cloud_bot.py:540-557 | while up, after a batch the offset is beyond every `update_id` in it |
| PollLemmas.UpdateWithoutIdKeepsOffset | cloud_bot.py:553-557 | an update without an id is handled, but the offset does not move |
| PollLemmas.OffsetMonotone | cloud_bot.py:518-570 | over any run of the loop the offset never decreases |
| CloudBot.Bot.PollOnce | cloud_bot.py:522-568 | one pass of the loop ends in the state and cursor `OnFetch` computes, for each of the five kinds of fetch |
| Relay.OnFetch | cloud_bot.py:522-568 | the definition of one pass of the loop; its properties are `FetchKeepsCalm`, `FifthMalformedRestarts`, `FifthEmptyFetchResets` and `BadResultCountsOnce` |
| Relay.Serve | cloud_bot.py:522-570 | the definition of the loop over a script; its properties are `OffsetMonotone`, `ServeKeepsCalm` and `ServeKeepsAccess` |
| PollLemmas.FetchKeepsCalm | cloud_bot.py:524-568 | while up, one pass keeps the consecutive-error count below 5; a batch resets it to 0; every fetch that is not a batch leaves the offset where it was, and a not-ok body changes nothing at all |
| PollLemmas.FifthMalformedRestarts | cloud_bot.py:562-568 | the fifth failure of the loop body in a row restarts the bot: one more restart and its notice |
| PollLemmas.FifthEmptyFetchResets | cloud_bot.py:525-531 | the fifth empty fetch in a row resets the counter to 0 and does not restart; a plain one changes nothing else, and one that raised only counts one error toward `handle_error` (cloud_bot.py:476-478), so below 50 errors the process stays up and nothing is sent |
| PollLemmas.BadResultCountsOnce | cloud_bot.py:538-566 | a body with a truthy `ok` whose `result` cannot be iterated leaves the state as it was and the counter at 1, so it never restarts the bot, whatever the counter was before |
| PollLemmas.ServeKeepsCalm | cloud_bot.py:518-570 | over any run, the consecutive-error count stays below 5 while the bot is up |
| PollLemmas.BatchKeepsAccess | cloud_bot.py:540-557 | a batch never changes the admin or blocked set |
| PollLemmas.ServeKeepsAccess | cloud_bot.py:522-570 | the poll loop never changes the admin or blocked set |
| CloudBot.Bot.Run | cloud_bot.py:494-570 | `main` ends in the state and cursor of `Session` for the same script |
| Relay.Session | cloud_bot.py:494-570 | the definition of `main`; its property is `SessionKeepsAccess` |
| PollLemmas.SessionKeepsAccess | cloud_bot.py:494-570 | over a whole run the admin set stays the primary admin alone and nobody is blocked; while up the consecutive-error count is below 5 |

## Left out

- HTTP calls (`send_message`, `forward_message`, `get_updates`, `requests`): foreign I/O. They are the abstract actions and the `api` oracle. A fetch is given as a `Fetch` value:
  - `NoUpdates`;
  - `NotOk`;
  - `Batch`;
  - `Malformed`: a truthy body that is not an object (a falsy one is `NoUpdates`), so the failure comes before the counter is reset at cloud_bot.py:538;
  - `BadResult`: a truthy `ok` with a `result` that cannot be iterated, so the failure comes after the reset.
- The `KeepAlive` thread (cloud_bot.py:41-68): it only pings a URL, concurrently.
- `signal_handler`, `sys.exit`, `os._exit`, the `WEBHOOK_URL` post and every `time.sleep`: process control and timing. A restart is a terminal state (`exited`).
- Logging and configuration loading (cloud_bot.py:19-22). The primary admin id and the presence of a bot token are parameters.
- The fixed message texts: each is an abstract `Msg` constructor. The text of the admin list and of the blocked list is the set it shows.
- `parse_mode` and `reply_to_message_id` on sends: they do not affect the state.
- The outcomes of the start-up and restart notices: each is one `Notify` action whose outcome is not consulted. A send failure inside `self_restart` would call `handle_error` again; that is not modelled, since the process exits either way. A start-up notice whose send raises (cloud_bot.py:512-516) counts one error through `handle_error` in the source, so for the rest of that session the model's `errorCount` can be one below the source's, and a restart can come one error later in the model than in the source.
- CloudBot.Bot.HandleCommand and Relay.OnCommand: in the source, a message without a sender id still makes a send to chat `None`, which the platform refuses. In the model that message does nothing.
- Python's own iteration order of sets and dicts: every loop takes an `order` function, which methods require to list each element exactly once.
- `datetime.now()`: an integer `now`, one per pass of the poll loop (per fetch). Every update of a batch, and the `add_mapping` and sweep it triggers, use that same `now`. The source reads the clock afresh at each call, so entries created within one batch may differ by the time the batch takes.
- Text.ParseInt: accepts ASCII digits, an optional sign and single underscores between digits. It does not model the non-ASCII decimal digits or the surrounding whitespace that Python's `int()` also accepts; a token produced by `split()` has no whitespace anyway. It also does not model CPython's limit on integer-string conversion (a `ValueError` past 4300 digits, which the source answers with the invalid-id reply); a Telegram message holds at most 4096 characters, so no such token reaches the bot.
- Text.Lower: exact only where its result is compared with an ASCII verb. It maps `A`-`Z` and KELVIN SIGN to lower case and leaves every other character unchanged.
- A `reply_to_message` without a `message_id` looks up `None`. That finds no mapping and does nothing, the same as a reply to an unmapped id, which is how the model represents it.
- Relay.LogReply: an exception while reading the log file (the reply "error reading logs") is left out. The file is either a sequence of lines or missing.
- The message object itself: a message is given by the fields the bot reads. Its `keys` field is the set of keys present, from which `HasMedia` computes `has_media`.
- Exceptions other than those described are left out: `KeyboardInterrupt`, and the generic `except Exception` around the admin commands that no modelled step can reach.
- `main`'s `while True` runs over a finite script of cycles. Every property is stated for every such script.
