/**
 * The relay core of the bot as functions over one value, `State`: the
 * forwarded-message mapping store, the admin and blocked sets, the
 * self-healing counters and the sequence of outbound platform calls made so
 * far. Every platform call goes through `Attempt`, whose outcome comes from
 * an oracle `api`; once the process has exited (the restart path ends in
 * `os._exit`) no further call has any effect.
 *
 * The class `CloudBot.Bot` runs the same steps imperatively and each of its
 * methods is proved to end in the state these functions compute.
 */
module Relay {
  import opened Wrappers
  import opened Text

  /** 24 hours, in microseconds (the resolution of `datetime`). */
  const DAY: int := 86_400_000_000
  /** `SelfHealing.max_errors`. */
  const MAX_ERRORS: nat := 50
  /** `max_consecutive_errors` of the poll loop. */
  const MAX_CONSECUTIVE_ERRORS: nat := 5

  /** One value of `message_mappings`. */
  datatype Entry = Entry(userId: int, createdAt: int)

  /**
   * The texts the bot sends, by meaning; the fixed wording is not modelled.
   * `UserHelp`, the `/help` answer to a non-admin, has the same wording as
   * `Welcome` in the source; the two are kept apart to name the branch.
   */
  datatype Msg =
    | Welcome
    | UserHelp
    | AdminHelp
    | StatusReport(adminCount: nat, userCount: nat, mappingCount: nat, blockedCount: nat, restarts: nat)
    | PanelText
    | AdminAdded(id: int)
    | CannotRemovePrimary
    | AdminRemoved(id: int)
    | NotAnAdmin
    | CannotBlockAdmin
    | UserBlocked(id: int)
    | UserUnblocked(id: int)
    | NotBlocked
    | AdminList(ids: set<int>)
    | BlockedList(ids: set<int>)
    | NoneBlocked
    | InvalidIdReply
    | Restarting
    | LogLines(excerpt: string)
    | LogsMissing
    | BroadcastDone(count: nat)
    | MediaBroadcastUnsupported
    | Verbatim(body: string)
    | Started
    | RestartNotice(count: nat)

  /**
   * An outbound platform call: `send_message`, `forward_message`, or a
   * best-effort notice to every admin whose individual outcomes are ignored.
   */
  datatype Action =
    | Send(chat: int, msg: Msg)
    | Forward(fromChat: int, messageId: int, toChat: int)
    | Notify(chats: set<int>, msg: Msg)

  /**
   * What the platform does with a call: answers with status 200 (and the new
   * message's id, if the answer carries one), answers with another status, or
   * the request raises (timeout, connection error).
   */
  datatype Outcome = Delivered(messageId: Option<int>) | Refused | Raised

  /**
   * The platform, as an oracle: `api(n, a)` is the outcome of the call `a`
   * made as the `n`-th recorded call of the session (its position in the
   * outbox), so the same call can fare differently each time it is made.
   */
  type Api = (nat, Action) -> Outcome

  /** What `send_message` / `forward_message` return: the answer, or `None`. */
  datatype Reply = NoReply | Answered(messageId: Option<int>)

  /**
   * The fields of an inbound message that the bot reads; `keys` are the keys
   * present in the message object, which decide whether it carries media.
   */
  datatype Message = Message(messageId: int, fromId: Option<int>, text: string, keys: set<string>, replyTo: Option<int>)

  /** The message keys that count as media. */
  const MEDIA_KEYS: set<string> := {"photo", "document", "video", "audio", "voice", "sticker"}

  /** `has_media`: one of the media keys is present. */
  predicate HasMedia(m: Message) {
    m.keys * MEDIA_KEYS != {}
  }

  /** An entry of the `result` list of `getUpdates`; `message` is `None` when the key is absent. */
  datatype Update = Update(updateId: Option<int>, message: Option<Message>)

  datatype State = State(
    mappings: map<int, Entry>,
    admins: set<int>,
    blocked: set<int>,
    errorCount: nat,
    restartCount: nat,
    exited: bool,
    outbox: seq<Action>)

  /** The state at start-up: `admin_users` holds the primary admin when one is configured. */
  function Initial(primary: int): (s: State)
    ensures s.admins == (if primary != 0 then {primary} else {}) && s.blocked == {}
    ensures primary != 0 ==> primary in s.admins && primary !in s.blocked
    ensures s.mappings == map[] && s.outbox == [] && !s.exited
    ensures s.errorCount == 0 && s.restartCount == 0
  {
    State(map[], if primary != 0 then {primary} else {}, {}, 0, 0, false, [])
  }

  /** Python truthiness of an optional id: present and non-zero. */
  predicate Truthy(o: Option<int>) {
    o.Some? && o.value != 0
  }

  /** `order` lists every element of `t` exactly once (the iteration order of a Python set). */
  ghost predicate Enumerates(order: seq<int>, t: set<int>) {
    (forall x :: x in order <==> x in t) && Distinct(order)
  }

  /** No element occurs twice. */
  predicate Distinct(xs: seq<int>) {
    forall i, j :: 0 <= i < j < |xs| ==> xs[i] != xs[j]
  }

  ghost predicate IsEnumerator(order: set<int> -> seq<int>) {
    forall t :: Enumerates(order(t), t)
  }

  // ---------------------------------------------------------------- mapping store

  predicate Expired(e: Entry, now: int) {
    e.createdAt < now - DAY
  }

  /** `cleanup_mappings()` at time `now`. */
  function Swept(m: map<int, Entry>, now: int): map<int, Entry> {
    map k | k in m && !Expired(m[k], now) :: m[k]
  }

  /** `add_mapping(key, user)` at time `now`. */
  function Put(m: map<int, Entry>, key: int, user: int, now: int): map<int, Entry> {
    Swept(m[key := Entry(user, now)], now)
  }

  /** `get_user_from_mapping(key)`. */
  function Lookup(m: map<int, Entry>, key: int): Option<int> {
    if key in m then Some(m[key].userId) else None
  }

  /** The distinct `user_id`s of the store. */
  function MappedUsers(m: map<int, Entry>): set<int> {
    set k | k in m :: m[k].userId
  }

  // ---------------------------------------------------------------- platform calls and self-healing

  /** `SelfHealing.self_restart()`: count the restart, notify the admins, exit. */
  function Restarted(s: State): (t: State)
    ensures t.exited && t.restartCount == s.restartCount + 1
    ensures t.mappings == s.mappings && t.admins == s.admins && t.blocked == s.blocked
    ensures t.errorCount == s.errorCount
    ensures t.outbox == s.outbox + [Notify(s.admins, RestartNotice(s.restartCount + 1))]
  {
    s.(restartCount := s.restartCount + 1, exited := true,
       outbox := s.outbox + [Notify(s.admins, RestartNotice(s.restartCount + 1))])
  }

  /** `SelfHealing.handle_error()`: count the error; at `MAX_ERRORS` restart. */
  function ErrorCounted(s: State): (t: State)
    ensures t.errorCount == s.errorCount + 1
    ensures t.exited <==> s.exited || s.errorCount + 1 >= MAX_ERRORS
    ensures t.mappings == s.mappings && t.admins == s.admins && t.blocked == s.blocked
  {
    var s1 := s.(errorCount := s.errorCount + 1);
    if s1.errorCount >= MAX_ERRORS then Restarted(s1) else s1
  }

  /**
   * One platform call. A live process records the call; an exception counts
   * as an error; only a 200 answer is an answer.
   */
  function Attempt(s: State, a: Action, api: Api): (r: (State, Reply))
    ensures r.0.mappings == s.mappings && r.0.admins == s.admins && r.0.blocked == s.blocked
    ensures r.1.Answered? <==> !s.exited && api(|s.outbox|, a).Delivered?
    ensures r.1.Answered? ==> r.1.messageId == api(|s.outbox|, a).messageId && r.0 == s.(outbox := s.outbox + [a])
    ensures !s.exited ==> r.0.errorCount == s.errorCount + (if api(|s.outbox|, a).Raised? then 1 else 0)
    ensures !s.exited ==> (r.0.exited <==> api(|s.outbox|, a).Raised? && s.errorCount + 1 >= MAX_ERRORS)
    ensures !s.exited && r.0.exited ==> r.0.restartCount == s.restartCount + 1
    ensures s.exited ==> r.0 == s
    ensures s.outbox <= r.0.outbox && s.restartCount <= r.0.restartCount
    ensures !s.exited && !r.0.exited ==> r.0.outbox == s.outbox + [a] && r.0.restartCount == s.restartCount
    ensures !s.exited && r.0.exited ==>
      r.0.outbox == s.outbox + [a, Notify(s.admins, RestartNotice(s.restartCount + 1))]
  {
    if s.exited then (s, NoReply)
    else
      var s1 := s.(outbox := s.outbox + [a]);
      match api(|s.outbox|, a)
      case Delivered(mid) => (s1, Answered(mid))
      case Refused => (s1, NoReply)
      case Raised => (ErrorCounted(s1), NoReply)
  }

  /** `reply_to_user(user, text)`: whether the send was answered. */
  function ReplyToUser(s: State, user: int, text: string, api: Api): (r: (State, bool))
    ensures r.1 <==> !s.exited && api(|s.outbox|, Send(user, Verbatim(text))).Delivered?
    ensures r.0 == Attempt(s, Send(user, Verbatim(text)), api).0
  {
    var (t, reply) := Attempt(s, Send(user, Verbatim(text)), api);
    (t, reply.Answered?)
  }

  // ---------------------------------------------------------------- forwarding to admins

  /**
   * `forward_to_admin(user, mid)` with the admins visited in `order`: the first
   * forward that is answered ends the loop and its message id (possibly
   * absent) is the result; `None` when no forward is answered.
   */
  function ForwardRun(s: State, user: int, mid: int, order: seq<int>, api: Api): (r: (State, Option<int>))
    ensures r.0.mappings == s.mappings && r.0.admins == s.admins && r.0.blocked == s.blocked
    ensures s.outbox <= r.0.outbox
    ensures s.exited ==> r == (s, None)
    decreases |order|
  {
    if order == [] then (s, None)
    else
      var (s1, reply) := Attempt(s, Forward(user, mid, order[0]), api);
      if reply.Answered? then (s1, reply.messageId)
      else ForwardRun(s1, user, mid, order[1..], api)
  }

  /**
   * Reference: the answer to the first forward in `order` that the platform
   * delivers, when the forwards are made as calls `at`, `at + 1`, ...
   */
  function FirstAnswer(user: int, mid: int, order: seq<int>, api: Api, at: nat): Option<Option<int>>
    decreases |order|
  {
    if order == [] then None
    else match api(at, Forward(user, mid, order[0]))
      case Delivered(x) => Some(x)
      case _ => FirstAnswer(user, mid, order[1..], api, at + 1)
  }

  // ---------------------------------------------------------------- broadcast

  /** The users in `order` that the broadcast loop does not skip. */
  function Recipients(admins: set<int>, blocked: set<int>, order: seq<int>): seq<int>
    decreases |order|
  {
    if order == [] then []
    else if order[0] in blocked || order[0] in admins then Recipients(admins, blocked, order[1..])
    else [order[0]] + Recipients(admins, blocked, order[1..])
  }

  function SendsTo(users: seq<int>, msg: Msg): seq<Action>
    decreases |users|
  {
    if users == [] then [] else [Send(users[0], msg)] + SendsTo(users[1..], msg)
  }

  /** How many of the sends to `users`, made as calls `at`, `at + 1`, ..., the platform delivers. */
  function CountDelivered(users: seq<int>, msg: Msg, api: Api, at: nat): (n: nat)
    ensures n <= |users|
    decreases |users|
  {
    if users == [] then 0
    else (if api(at, Send(users[0], msg)).Delivered? then 1 else 0) + CountDelivered(users[1..], msg, api, at + 1)
  }

  /**
   * The loop of `broadcast_to_all_users` over the mapped users in `order`:
   * skip admins and blocked users, send to the others, count the answered sends.
   */
  function BroadcastRun(s: State, order: seq<int>, msg: Msg, api: Api): (r: (State, nat))
    ensures r.0.mappings == s.mappings && r.0.admins == s.admins && r.0.blocked == s.blocked
    ensures s.outbox <= r.0.outbox
    ensures s.exited ==> r == (s, 0)
    ensures r.1 <= |Recipients(s.admins, s.blocked, order)|
    decreases |order|
  {
    if order == [] then (s, 0)
    else if order[0] in s.blocked || order[0] in s.admins then BroadcastRun(s, order[1..], msg, api)
    else
      var (s1, reply) := Attempt(s, Send(order[0], msg), api);
      var (s2, n) := BroadcastRun(s1, order[1..], msg, api);
      (s2, if reply.Answered? then n + 1 else n)
  }

  /** `broadcast_to_all_users(text, initiator)`: the loop, then the report to the initiator. */
  function Broadcast(s: State, text: string, initiator: int, order: seq<int>, api: Api): (r: (State, nat))
    ensures r.0.mappings == s.mappings && r.0.admins == s.admins && r.0.blocked == s.blocked
    ensures s.outbox <= r.0.outbox
    ensures r.1 <= |Recipients(s.admins, s.blocked, order)|
  {
    var (s1, n) := BroadcastRun(s, order, Verbatim(text), api);
    (Attempt(s1, Send(initiator, BroadcastDone(n)), api).0, n)
  }

  // ---------------------------------------------------------------- admin commands

  /** What `handle_admin_commands` decides to do with a text, before looking at the state. */
  datatype Command =
    | AddAdmin(id: int)
    | RemoveAdmin(id: int)
    | Block(id: int)
    | Unblock(id: int)
    | ListAdmins
    | ListBlocked
    | ShowPanel
    | BroadcastText(text: string)
    | Restart
    | ShowLogs
    | BadId
    | NoCommand

  predicate TakesId(verb: string) {
    verb == "/addadmin" || verb == "/removeadmin" || verb == "/block" || verb == "/unblock"
  }

  function IdCommand(verb: string, id: int): Command
    requires TakesId(verb)
  {
    if verb == "/addadmin" then AddAdmin(id)
    else if verb == "/removeadmin" then RemoveAdmin(id)
    else if verb == "/block" then Block(id)
    else Unblock(id)
  }

  /**
   * The `if`/`elif` chain of `handle_admin_commands`: the verb is the first
   * token lowered, the four id commands need a second token and fail with
   * `ValueError` when it is not an integer; anything else is ignored.
   */
  function ParseAdminCommand(text: string): Command
    requires Split(text) != []
  {
    var parts := Split(text);
    var verb := Lower(parts[0]);
    if TakesId(verb) && |parts| >= 2 then
      match ParseInt(parts[1])
      case Some(n) => IdCommand(verb, n)
      case None => BadId
    else if verb == "/admins" then ListAdmins
    else if verb == "/blocked" then ListBlocked
    else if verb == "/panel" then ShowPanel
    else if verb == "/broadcast" && |parts| >= 2 then BroadcastText(JoinWords(parts[1..]))
    else if verb == "/restart" then Restart
    else if verb == "/logs" then ShowLogs
    else NoCommand
  }

  /** `handle_admin_commands(sender, text)`; `logFile` is the log file's lines, `None` when it is missing. */
  function OnAdminCommand(s: State, primary: int, sender: int, text: string,
                          order: set<int> -> seq<int>, logFile: Option<seq<string>>, api: Api): State
    requires Split(text) != []
  {
    if sender !in s.admins then s
    else RunCommand(s, primary, sender, ParseAdminCommand(text), order, logFile, api)
  }

  /** The branch of `handle_admin_commands` that the command `c` selects, for an admin `sender`. */
  function RunCommand(s: State, primary: int, sender: int, c: Command,
                      order: set<int> -> seq<int>, logFile: Option<seq<string>>, api: Api): State
  {
    match c
    case AddAdmin(_) => RunIdCommand(s, primary, sender, c, api)
    case RemoveAdmin(_) => RunIdCommand(s, primary, sender, c, api)
    case Block(_) => RunIdCommand(s, primary, sender, c, api)
    case Unblock(_) => RunIdCommand(s, primary, sender, c, api)
    case ListAdmins => Attempt(s, Send(sender, AdminList(s.admins)), api).0
    case ListBlocked =>
      Attempt(s, Send(sender, if s.blocked != {} then BlockedList(s.blocked) else NoneBlocked), api).0
    case ShowPanel => Attempt(s, Send(sender, PanelText), api).0
    case BroadcastText(b) => Broadcast(s, b, sender, order(MappedUsers(s.mappings)), api).0
    case Restart =>
      var s1 := Attempt(s, Send(sender, Restarting), api).0;
      if s1.exited then s1 else Restarted(s1)
    case ShowLogs => Attempt(s, Send(sender, LogReply(logFile)), api).0
    case BadId => Attempt(s, Send(sender, InvalidIdReply), api).0
    case NoCommand => s
  }

  /** The four commands that take an id: the set update, then the confirmation or refusal. */
  function RunIdCommand(s: State, primary: int, sender: int, c: Command, api: Api): State
    requires c.AddAdmin? || c.RemoveAdmin? || c.Block? || c.Unblock?
  {
    var x := c.id;
    match c
    case AddAdmin(_) =>
      Attempt(s.(admins := s.admins + {x}), Send(sender, AdminAdded(x)), api).0
    case RemoveAdmin(_) =>
      if x == primary then Attempt(s, Send(sender, CannotRemovePrimary), api).0
      else if x in s.admins then Attempt(s.(admins := s.admins - {x}), Send(sender, AdminRemoved(x)), api).0
      else Attempt(s, Send(sender, NotAnAdmin), api).0
    case Block(_) =>
      if x in s.admins then Attempt(s, Send(sender, CannotBlockAdmin), api).0
      else Attempt(s.(blocked := s.blocked + {x}), Send(sender, UserBlocked(x)), api).0
    case Unblock(_) =>
      if x in s.blocked then Attempt(s.(blocked := s.blocked - {x}), Send(sender, UserUnblocked(x)), api).0
      else Attempt(s, Send(sender, NotBlocked), api).0
  }

  /** The `/logs` reply: the excerpt, or the notice that the file does not exist. */
  function LogReply(logFile: Option<seq<string>>): (r: Msg)
    ensures r == LogsMissing <==> logFile.None?
    ensures logFile.Some? ==> r.LogLines? && |LOGS_HEADER| <= |r.excerpt| && r.excerpt[..|LOGS_HEADER|] == LOGS_HEADER
  {
    match logFile
    case None => LogsMissing
    case Some(lines) => LogLines(LogExcerpt(lines))
  }

  // ---------------------------------------------------------------- inbound messages

  predicate StartsWithSlash(text: string) {
    |text| > 0 && text[0] == '/'
  }

  /** `handle_message(update)` for the update's message `m`, received at time `now`. */
  function OnMessage(s: State, primary: int, m: Message, now: int,
                     order: set<int> -> seq<int>, logFile: Option<seq<string>>, api: Api): State
  {
    if !Truthy(m.fromId) || (m.text == "" && !HasMedia(m)) then s
    else
      var u := m.fromId.value;
      if u in s.blocked then s
      else if u in s.admins then
        if m.replyTo.Some? then
          var target := Lookup(s.mappings, m.replyTo.value);
          if !Truthy(target) then s
          else if HasMedia(m) then Attempt(s, Forward(u, m.messageId, target.value), api).0
          else ReplyToUser(s, target.value, m.text, api).0
        else if StartsWithSlash(m.text) then
          OnAdminCommand(s, primary, u, m.text, order, logFile, api)
        else if m.text != "" then Broadcast(s, m.text, u, order(MappedUsers(s.mappings)), api).0
        else Attempt(s, Send(u, MediaBroadcastUnsupported), api).0
      else
        var (s1, fid) := ForwardRun(s, u, m.messageId, order(s.admins), api);
        if Truthy(fid) then s1.(mappings := Put(s1.mappings, fid.value, u, now)) else s1
  }

  /**
   * `handle_command(update)`: exact-text commands. A message without a sender
   * id gets nothing (the source sends to chat `None`, which the platform refuses).
   */
  function OnCommand(s: State, primary: int, m: Message,
                     order: set<int> -> seq<int>, logFile: Option<seq<string>>, api: Api): State
  {
    if m.fromId.None? then s
    else
      var u := m.fromId.value;
      if u in s.blocked then s
      else if m.text == "/start" then Attempt(s, Send(u, Welcome), api).0
      else if m.text == "/help" then Attempt(s, Send(u, if u in s.admins then AdminHelp else UserHelp), api).0
      else if m.text == "/status" && u in s.admins then
        var report := StatusReport(|s.admins|, |MappedUsers(s.mappings)|, |s.mappings|, |s.blocked|, s.restartCount);
        Attempt(s, Send(u, report), api).0
      else if m.text == "/panel" && u in s.admins then
        assert Split(m.text) != [];
        OnAdminCommand(s, primary, u, m.text, order, logFile, api)
      else s
  }

  /** The body of the poll loop for one update: text starting with `/` goes to `handle_command`. */
  function OnUpdate(s: State, primary: int, up: Update, now: int,
                    order: set<int> -> seq<int>, logFile: Option<seq<string>>, api: Api): State
  {
    match up.message
    case None => s
    case Some(m) =>
      if StartsWithSlash(m.text) then OnCommand(s, primary, m, order, logFile, api)
      else OnMessage(s, primary, m, now, order, logFile, api)
  }

  // ---------------------------------------------------------------- the poll loop

  /**
   * `offset = max(offset, update_id + 1)`; an update without an id raises at
   * the addition and leaves the offset as it was.
   */
  function NextOffset(offset: int, up: Update): (r: int)
    ensures r >= offset
    ensures up.updateId.Some? ==> r >= up.updateId.value + 1
    ensures up.updateId.Some? ==> r == offset || r == up.updateId.value + 1
    ensures up.updateId.None? ==> r == offset
  {
    match up.updateId
    case None => offset
    case Some(id) => if offset > id + 1 then offset else id + 1
  }

  /** The loop over one batch of updates; it ends when the process exits. */
  function OnBatch(s: State, primary: int, offset: int, ups: seq<Update>, now: int,
                   order: set<int> -> seq<int>, logFile: Option<seq<string>>, api: Api): (r: (State, int))
    ensures r.1 >= offset
    ensures s.exited ==> r == (s, offset)
    decreases |ups|
  {
    if ups == [] || s.exited then (s, offset)
    else
      var s1 := OnUpdate(s, primary, ups[0], now, order, logFile, api);
      var o1 := if s1.exited then offset else NextOffset(offset, ups[0]);
      OnBatch(s1, primary, o1, ups[1..], now, order, logFile, api)
  }

  /** The poll loop's own variables. */
  datatype Cursor = Cursor(offset: int, consecutiveErrors: nat)

  /**
   * What `get_updates(offset)` gave:
   * - `NoUpdates`: `None` or an empty body (after an exception when `raised`);
   * - `NotOk`: a body whose `ok` is false;
   * - `Batch`: a body whose `ok` is true and whose `result` is a list of updates;
   * - `Malformed`: a truthy body whose `ok` cannot be read (it is not an
   *   object; a falsy one is `NoUpdates`),
   *   which ends in the outer `except` of `main` before the counter is reset;
   * - `BadResult`: a body whose `ok` is true but whose `result` cannot be
   *   iterated (`null`, a number), which ends in the outer `except` after the
   *   counter was reset to 0.
   */
  datatype Fetch = NoUpdates(raised: bool) | NotOk | Batch(updates: seq<Update>) | Malformed | BadResult

  /** A fetch and the time it was dispatched at. */
  datatype Cycle = Cycle(fetch: Fetch, now: int)

  /** One pass of `while True` in `main`. */
  function OnFetch(s: State, primary: int, c: Cursor, cycle: Cycle,
                   order: set<int> -> seq<int>, logFile: Option<seq<string>>, api: Api): (r: (State, Cursor))
  {
    match cycle.fetch
    case NoUpdates(raised) =>
      var s1 := if raised then ErrorCounted(s) else s;
      var n := c.consecutiveErrors + 1;
      (s1, Cursor(c.offset, if n >= MAX_CONSECUTIVE_ERRORS then 0 else n))
    case NotOk => (s, c)
    case Batch(ups) =>
      var (s1, o) := OnBatch(s, primary, c.offset, ups, cycle.now, order, logFile, api);
      (s1, Cursor(o, 0))
    case Malformed =>
      var n := c.consecutiveErrors + 1;
      (if n >= MAX_CONSECUTIVE_ERRORS then Restarted(s) else s, Cursor(c.offset, n))
    case BadResult =>
      // The counter was just reset, so the outer `except` brings it to 1 only.
      (s, Cursor(c.offset, 1))
  }

  /** The loop of `main` over a finite script of fetches; it ends when the process exits. */
  function Serve(s: State, primary: int, c: Cursor, cycles: seq<Cycle>,
                 order: set<int> -> seq<int>, logFile: Option<seq<string>>, api: Api): (r: (State, Cursor))
    decreases |cycles|
  {
    if cycles == [] || s.exited then (s, c)
    else
      var (s1, c1) := OnFetch(s, primary, c, cycles[0], order, logFile, api);
      Serve(s1, primary, c1, cycles[1..], order, logFile, api)
  }

  /**
   * `main()`: without a token or a primary admin it returns at once;
   * otherwise it notifies the admins and polls from offset 0.
   */
  function Session(primary: int, hasToken: bool, cycles: seq<Cycle>,
                order: set<int> -> seq<int>, logFile: Option<seq<string>>, api: Api): (State, Cursor)
  {
    var s := Initial(primary);
    if !hasToken || primary == 0 then (s, Cursor(0, 0))
    else Serve(s.(outbox := [Notify(s.admins, Started)]), primary, Cursor(0, 0), cycles, order, logFile, api)
  }
}
