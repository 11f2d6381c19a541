/**
 * The bot's mutable state and its handlers, in the imperative form of the
 * source: `SelfHealing` owns the error and restart counters, `Bot` owns the
 * module-level `message_mappings`, `admin_users` and `blocked_users` and the
 * record of outbound calls. Every method is proved to leave the object in the
 * state that the corresponding function of `Relay` computes, so the lemmas
 * about those functions (modules `RelayLemmas`, `CommandLemmas`,
 * `RoutingLemmas`, `PollLemmas`) hold of the methods too.
 */
module CloudBot {
  import opened Wrappers
  import opened Text
  import opened Relay

  class SelfHealing {
    var errorCount: nat
    var restartCount: nat
    /** Set by `self_restart`, which ends the process with `os._exit(1)`. */
    var exited: bool

    constructor ()
      ensures errorCount == 0 && restartCount == 0 && !exited
    {
      errorCount := 0;
      restartCount := 0;
      exited := false;
    }

    /** `self_restart`: count the restart, produce the notice to the admins, exit. */
    method SelfRestart(admins: set<int>) returns (notice: Action)
      requires !exited
      modifies this
      ensures exited && errorCount == old(errorCount)
      ensures restartCount == old(restartCount) + 1
      ensures notice == Notify(admins, RestartNotice(restartCount))
    {
      restartCount := restartCount + 1;
      notice := Notify(admins, RestartNotice(restartCount));
      exited := true;
    }

    /** `handle_error`: count the error and restart once `MAX_ERRORS` is reached. */
    method HandleError(admins: set<int>) returns (notice: Option<Action>)
      requires !exited
      modifies this
      ensures errorCount == old(errorCount) + 1
      ensures notice.Some? <==> errorCount >= MAX_ERRORS
      ensures exited <==> notice.Some?
      ensures notice.Some? ==> restartCount == old(restartCount) + 1
                               && notice.value == Notify(admins, RestartNotice(restartCount))
      ensures notice.None? ==> restartCount == old(restartCount)
    {
      errorCount := errorCount + 1;
      if errorCount >= MAX_ERRORS {
        var n := SelfRestart(admins);
        notice := Some(n);
      } else {
        notice := None;
      }
    }
  }

  class Bot {
    /** `ADMIN_USER_ID`. */
    const primary: int
    const healing: SelfHealing
    var mappings: map<int, Entry>
    var admins: set<int>
    var blocked: set<int>
    /** Every platform call made so far, in order. */
    var outbox: seq<Action>

    function St(): State
      reads this, healing
    {
      State(mappings, admins, blocked, healing.errorCount, healing.restartCount, healing.exited, outbox)
    }

    constructor (primary: int)
      ensures this.primary == primary && fresh(healing)
      ensures St() == Initial(primary)
    {
      this.primary := primary;
      healing := new SelfHealing();
      mappings := map[];
      admins := if primary != 0 then {primary} else {};
      blocked := {};
      outbox := [];
    }

    /** `is_admin`. */
    function IsAdmin(user: int): bool
      reads this
    {
      user in admins
    }

    /** `is_blocked`. */
    function IsBlocked(user: int): bool
      reads this
    {
      user in blocked
    }

    /** `get_user_from_mapping`, on the current store. */
    function UserFromMapping(key: int): Option<int>
      reads this
    {
      Lookup(mappings, key)
    }

    /** `cleanup_mappings`: collect the expired keys, visiting the keys in `order`, then delete them. */
    method CleanupMappings(now: int, order: set<int> -> seq<int>)
      requires IsEnumerator(order)
      modifies this
      ensures mappings == Swept(old(mappings), now)
      ensures admins == old(admins) && blocked == old(blocked) && outbox == old(outbox)
    {
      var keys := order(mappings.Keys);
      assert Enumerates(keys, mappings.Keys);
      var toRemove: seq<int> := [];
      var i := 0;
      while i < |keys|
        invariant 0 <= i <= |keys|
        invariant forall k :: k in toRemove <==> k in keys[..i] && k in mappings && Expired(mappings[k], now)
      {
        assert keys[..i + 1] == keys[..i] + [keys[i]];
        var k := keys[i];
        if mappings[k].createdAt < now - DAY {
          toRemove := toRemove + [k];
        }
        i := i + 1;
      }
      assert keys[..i] == keys;
      assert forall k :: k in toRemove <==> k in old(mappings) && Expired(old(mappings)[k], now);
      i := 0;
      while i < |toRemove|
        invariant 0 <= i <= |toRemove|
        invariant mappings == map k | k in old(mappings) && k !in toRemove[..i] :: old(mappings)[k]
        invariant admins == old(admins) && blocked == old(blocked) && outbox == old(outbox)
      {
        assert toRemove[..i + 1] == toRemove[..i] + [toRemove[i]];
        mappings := mappings - {toRemove[i]};
        i := i + 1;
      }
      assert toRemove[..i] == toRemove;
      forall k ensures k in mappings <==> k in Swept(old(mappings), now) {
      }
    }

    /** `add_mapping`: insert or overwrite, then sweep. */
    method AddMapping(key: int, user: int, now: int, order: set<int> -> seq<int>)
      requires IsEnumerator(order)
      modifies this
      ensures mappings == Put(old(mappings), key, user, now)
      ensures admins == old(admins) && blocked == old(blocked) && outbox == old(outbox)
    {
      mappings := mappings[key := Entry(user, now)];
      CleanupMappings(now, order);
    }

    /** `self_healing.self_restart()` with the notice recorded. */
    method SelfRestart()
      requires !healing.exited
      modifies this, healing
      ensures St() == Restarted(old(St()))
    {
      var notice := healing.SelfRestart(admins);
      outbox := outbox + [notice];
    }

    /** `self_healing.handle_error(e)` with the restart notice, if any, recorded. */
    method HandleError()
      requires !healing.exited
      modifies this, healing
      ensures St() == ErrorCounted(old(St()))
    {
      var notice := healing.HandleError(admins);
      if notice.Some? {
        outbox := outbox + [notice.value];
      }
    }

    /** One call of `send_message` or `forward_message`, answered as `api` says. */
    method Call(a: Action, api: Api) returns (reply: Reply)
      modifies this, healing
      ensures (St(), reply) == Attempt(old(St()), a, api)
    {
      if healing.exited {
        return NoReply;
      }
      var position := |outbox|;
      outbox := outbox + [a];
      match api(position, a)
      case Delivered(mid) =>
        reply := Answered(mid);
      case Refused =>
        reply := NoReply;
      case Raised =>
        reply := NoReply;
        HandleError();
    }

    /** `reply_to_user`. */
    method ReplyToUser(user: int, text: string, api: Api) returns (ok: bool)
      modifies this, healing
      ensures (St(), ok) == Relay.ReplyToUser(old(St()), user, text, api)
    {
      var reply := Call(Send(user, Verbatim(text)), api);
      ok := reply.Answered?;
    }

    /** `forward_to_admin`, with `admin_users` iterated in `order`. */
    method ForwardToAdmin(user: int, messageId: int, order: seq<int>, api: Api) returns (forwarded: Option<int>)
      requires Enumerates(order, admins)
      modifies this, healing
      ensures (St(), forwarded) == ForwardRun(old(St()), user, messageId, order, api)
    {
      var i := 0;
      while i < |order|
        invariant 0 <= i <= |order|
        invariant ForwardRun(old(St()), user, messageId, order, api) == ForwardRun(St(), user, messageId, order[i..], api)
      {
        assert order[i..][1..] == order[i + 1..];
        var reply := Call(Forward(user, messageId, order[i]), api);
        if reply.Answered? {
          return reply.messageId;
        }
        i := i + 1;
      }
      return None;
    }

    /** One send of the broadcast loop, to the first of the users `rest` still to visit. */
    method SendOne(user: int, text: string, rest: seq<int>, api: Api) returns (reply: Reply)
      requires rest != [] && rest[0] == user && user !in blocked && user !in admins
      modifies this, healing
      ensures (St(), reply) == Attempt(old(St()), Send(user, Verbatim(text)), api)
      ensures var r := BroadcastRun(St(), rest[1..], Verbatim(text), api);
        BroadcastRun(old(St()), rest, Verbatim(text), api) == (r.0, if reply.Answered? then r.1 + 1 else r.1)
    {
      reply := Call(Send(user, Verbatim(text)), api);
    }

    /** `broadcast_to_all_users`, with the mapped users iterated in `order`. */
    method BroadcastToAllUsers(text: string, initiator: int, order: seq<int>, api: Api) returns (sent: nat)
      requires Enumerates(order, MappedUsers(mappings))
      modifies this, healing
      ensures (St(), sent) == Broadcast(old(St()), text, initiator, order, api)
    {
      sent := 0;
      var i := 0;
      while i < |order|
        invariant 0 <= i <= |order|
        invariant var rest := BroadcastRun(St(), order[i..], Verbatim(text), api);
          BroadcastRun(old(St()), order, Verbatim(text), api) == (rest.0, sent + rest.1)
      {
        assert order[i..][1..] == order[i + 1..];
        var user := order[i];
        if user !in blocked && user !in admins {
          var reply := SendOne(user, text, order[i..], api);
          if reply.Answered? {
            sent := sent + 1;
          }
        }
        i := i + 1;
      }
      var report := Call(Send(initiator, BroadcastDone(sent)), api);
    }

    /** `handle_admin_commands`; the `/logs` file is given as its lines, `None` when missing. */
    method HandleAdminCommands(sender: int, text: string, order: set<int> -> seq<int>,
                               logFile: Option<seq<string>>, api: Api)
      requires Split(text) != [] && IsEnumerator(order)
      modifies this, healing
      ensures St() == OnAdminCommand(old(St()), primary, sender, text, order, logFile, api)
    {
      if !IsAdmin(sender) {
        return;
      }
      var c := ParseAdminCommand(text);
      if c.AddAdmin? || c.RemoveAdmin? || c.Block? || c.Unblock? {
        ExecuteIdCommand(sender, c, api);
      } else {
        Execute(sender, c, order, logFile, api);
      }
    }

    /** The branches of `handle_admin_commands` that do not take an id. */
    method Execute(sender: int, c: Command, order: set<int> -> seq<int>,
                   logFile: Option<seq<string>>, api: Api)
      requires !(c.AddAdmin? || c.RemoveAdmin? || c.Block? || c.Unblock?) && IsEnumerator(order)
      modifies this, healing
      ensures St() == RunCommand(old(St()), primary, sender, c, order, logFile, api)
    {
      var reply: Reply;
      match c
      case ListAdmins =>
        reply := Call(Send(sender, AdminList(admins)), api);
      case ListBlocked =>
        if blocked != {} {
          reply := Call(Send(sender, BlockedList(blocked)), api);
        } else {
          reply := Call(Send(sender, NoneBlocked), api);
        }
      case ShowPanel =>
        reply := Call(Send(sender, PanelText), api);
      case BroadcastText(b) =>
        var sent := BroadcastToAllUsers(b, sender, order(MappedUsers(mappings)), api);
      case Restart =>
        reply := Call(Send(sender, Restarting), api);
        if !healing.exited {
          SelfRestart();
        }
      case ShowLogs =>
        reply := Call(Send(sender, LogReply(logFile)), api);
      case BadId =>
        reply := Call(Send(sender, InvalidIdReply), api);
      case NoCommand =>
    }

    /** `/addadmin`, `/removeadmin`, `/block` and `/unblock` with a parsed id. */
    method ExecuteIdCommand(sender: int, c: Command, api: Api)
      requires c.AddAdmin? || c.RemoveAdmin? || c.Block? || c.Unblock?
      modifies this, healing
      ensures St() == RunIdCommand(old(St()), primary, sender, c, api)
    {
      var x := c.id;
      var reply: Reply;
      match c
      case AddAdmin(_) =>
        admins := admins + {x};
        reply := Call(Send(sender, AdminAdded(x)), api);
      case RemoveAdmin(_) =>
        if x == primary {
          reply := Call(Send(sender, CannotRemovePrimary), api);
        } else if x in admins {
          admins := admins - {x};
          reply := Call(Send(sender, AdminRemoved(x)), api);
        } else {
          reply := Call(Send(sender, NotAnAdmin), api);
        }
      case Block(_) =>
        if x in admins {
          reply := Call(Send(sender, CannotBlockAdmin), api);
        } else {
          blocked := blocked + {x};
          reply := Call(Send(sender, UserBlocked(x)), api);
        }
      case Unblock(_) =>
        if x in blocked {
          blocked := blocked - {x};
          reply := Call(Send(sender, UserUnblocked(x)), api);
        } else {
          reply := Call(Send(sender, NotBlocked), api);
        }
    }

    /** `handle_message`, for the message `m` of an update received at time `now`. */
    method HandleMessage(m: Message, now: int, order: set<int> -> seq<int>,
                         logFile: Option<seq<string>>, api: Api)
      requires IsEnumerator(order)
      modifies this, healing
      ensures St() == OnMessage(old(St()), primary, m, now, order, logFile, api)
    {
      if !Truthy(m.fromId) || (m.text == "" && !HasMedia(m)) {
        return;
      }
      var user := m.fromId.value;
      if IsBlocked(user) {
        return;
      }
      if IsAdmin(user) {
        if m.replyTo.Some? {
          var target := UserFromMapping(m.replyTo.value);
          if Truthy(target) {
            if HasMedia(m) {
              var reply := Call(Forward(user, m.messageId, target.value), api);
            } else {
              var ok := ReplyToUser(target.value, m.text, api);
            }
          }
        } else if StartsWithSlash(m.text) {
          HandleAdminCommands(user, m.text, order, logFile, api);
        } else if m.text != "" {
          var sent := BroadcastToAllUsers(m.text, user, order(MappedUsers(mappings)), api);
        } else {
          var reply := Call(Send(user, MediaBroadcastUnsupported), api);
        }
      } else {
        var forwarded := ForwardToAdmin(user, m.messageId, order(admins), api);
        if Truthy(forwarded) {
          AddMapping(forwarded.value, user, now, order);
        }
      }
    }

    /** `handle_command`. */
    method HandleCommand(m: Message, order: set<int> -> seq<int>, logFile: Option<seq<string>>, api: Api)
      requires IsEnumerator(order)
      modifies this, healing
      ensures St() == OnCommand(old(St()), primary, m, order, logFile, api)
    {
      if m.fromId.None? {
        return;
      }
      var user := m.fromId.value;
      if IsBlocked(user) {
        return;
      }
      var reply: Reply;
      if m.text == "/start" {
        reply := Call(Send(user, Welcome), api);
      } else if m.text == "/help" {
        reply := Call(Send(user, if IsAdmin(user) then AdminHelp else UserHelp), api);
      } else if m.text == "/status" && IsAdmin(user) {
        var report := StatusReport(|admins|, |MappedUsers(mappings)|, |mappings|, |blocked|, healing.restartCount);
        reply := Call(Send(user, report), api);
      } else if m.text == "/panel" && IsAdmin(user) {
        HandleAdminCommands(user, m.text, order, logFile, api);
      }
    }

    /** The body of `main`'s loop for one update, before the offset is advanced. */
    method HandleUpdate(up: Update, now: int, order: set<int> -> seq<int>, logFile: Option<seq<string>>, api: Api)
      requires IsEnumerator(order)
      modifies this, healing
      ensures St() == OnUpdate(old(St()), primary, up, now, order, logFile, api)
    {
      match up.message
      case None =>
      case Some(m) =>
        if StartsWithSlash(m.text) {
          HandleCommand(m, order, logFile, api);
        } else {
          HandleMessage(m, now, order, logFile, api);
        }
    }

    /** One pass of `main`'s `while True`. */
    method PollOnce(cursor: Cursor, cycle: Cycle, order: set<int> -> seq<int>,
                    logFile: Option<seq<string>>, api: Api) returns (next: Cursor)
      requires !healing.exited && IsEnumerator(order)
      modifies this, healing
      ensures (St(), next) == OnFetch(old(St()), primary, cursor, cycle, order, logFile, api)
    {
      match cycle.fetch
      case NoUpdates(raised) =>
        if raised {
          HandleError();
        }
        var n := cursor.consecutiveErrors + 1;
        if n >= MAX_CONSECUTIVE_ERRORS {
          n := 0;
        }
        next := Cursor(cursor.offset, n);
      case NotOk =>
        next := cursor;
      case Batch(ups) =>
        var offset := cursor.offset;
        var i := 0;
        while i < |ups| && !healing.exited
          invariant 0 <= i <= |ups|
          invariant OnBatch(old(St()), primary, cursor.offset, ups, cycle.now, order, logFile, api)
                 == OnBatch(St(), primary, offset, ups[i..], cycle.now, order, logFile, api)
        {
          assert ups[i..][1..] == ups[i + 1..];
          HandleUpdate(ups[i], cycle.now, order, logFile, api);
          if !healing.exited {
            offset := NextOffset(offset, ups[i]);
          }
          i := i + 1;
        }
        next := Cursor(offset, 0);
      case Malformed =>
        var n := cursor.consecutiveErrors + 1;
        if n >= MAX_CONSECUTIVE_ERRORS {
          SelfRestart();
        }
        next := Cursor(cursor.offset, n);
      case BadResult =>
        next := Cursor(cursor.offset, 1);
    }

    /** `main`, over a finite script of fetches. */
    method Run(hasToken: bool, cycles: seq<Cycle>, order: set<int> -> seq<int>,
               logFile: Option<seq<string>>, api: Api) returns (cursor: Cursor)
      requires St() == Initial(primary) && IsEnumerator(order)
      modifies this, healing
      ensures (St(), cursor) == Session(primary, hasToken, cycles, order, logFile, api)
    {
      cursor := Cursor(0, 0);
      if !hasToken || primary == 0 {
        return;
      }
      outbox := outbox + [Notify(admins, Started)];
      ghost var start := St();
      assert start == Initial(primary).(outbox := [Notify(Initial(primary).admins, Started)]);
      var i := 0;
      while i < |cycles| && !healing.exited
        invariant 0 <= i <= |cycles|
        invariant Serve(start, primary, Cursor(0, 0), cycles, order, logFile, api)
               == Serve(St(), primary, cursor, cycles[i..], order, logFile, api)
      {
        assert cycles[i..][1..] == cycles[i + 1..];
        cursor := PollOnce(cursor, cycles[i], order, logFile, api);
        i := i + 1;
      }
      if i == |cycles| {
        assert cycles[i..] == [];
      }
    }
  }
}
