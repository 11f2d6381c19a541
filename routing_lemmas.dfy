/**
 * Properties of `handle_message`, `handle_command` and the split in `main`
 * that sends every text starting with `/` to `handle_command`.
 */
module RoutingLemmas {
  import opened Wrappers
  import opened Text
  import opened Relay
  import opened RelayLemmas
  import opened CommandLemmas

  /** Every call recorded between `s` and `t` is a send to `u` or a notice to the admins. */
  ghost predicate OnlyToSender(s: State, t: State, u: int) {
    && s.outbox <= t.outbox
    && forall j :: |s.outbox| <= j < |t.outbox| ==> (t.outbox[j].Send? && t.outbox[j].chat == u) || t.outbox[j].Notify?
  }

  /** No sender, no content, or a blocked sender: the message is dropped. */
  lemma DiscardedMessages(s: State, primary: int, m: Message, now: int,
                          order: set<int> -> seq<int>, logFile: Option<seq<string>>, api: Api)
    requires !Truthy(m.fromId) || (m.text == "" && !HasMedia(m)) || m.fromId.value in s.blocked
    ensures OnMessage(s, primary, m, now, order, logFile, api) == s
  {
  }

  /**
   * An admin's reply goes to the user the replied-to message maps to, as one
   * send (text) or one forward (media), and nowhere else; an unmapped reply
   * does nothing. No set and no mapping changes.
   */
  lemma AdminReplyGoesToMappedUser(s: State, primary: int, m: Message, now: int,
                                   order: set<int> -> seq<int>, logFile: Option<seq<string>>, api: Api)
    requires Truthy(m.fromId) && (m.text != "" || HasMedia(m))
    requires m.fromId.value !in s.blocked && m.fromId.value in s.admins && m.replyTo.Some?
    ensures var t := OnMessage(s, primary, m, now, order, logFile, api);
      var target := Lookup(s.mappings, m.replyTo.value);
      && t.mappings == s.mappings && t.admins == s.admins && t.blocked == s.blocked
      && (!Truthy(target) ==> t == s)
      && (Truthy(target) && !s.exited ==>
            var a := if HasMedia(m) then Forward(m.fromId.value, m.messageId, target.value)
                     else Send(target.value, Verbatim(m.text));
            t.outbox == s.outbox + [a]
            || t.outbox == s.outbox + [a, Notify(s.admins, RestartNotice(s.restartCount + 1))])
  {
  }

  /**
   * An admin's text that is neither a reply nor a command is broadcast: one
   * send to each recipient, then the count to the admin.
   */
  lemma AdminTextIsBroadcast(s: State, primary: int, m: Message, now: int,
                             order: set<int> -> seq<int>, logFile: Option<seq<string>>, api: Api)
    requires Truthy(m.fromId) && m.text != "" && !StartsWithSlash(m.text)
    requires m.fromId.value !in s.blocked && m.fromId.value in s.admins && m.replyTo.None?
    requires !s.exited
    ensures var t := OnMessage(s, primary, m, now, order, logFile, api);
      var users := Recipients(s.admins, s.blocked, order(MappedUsers(s.mappings)));
      && t.mappings == s.mappings && t.admins == s.admins && t.blocked == s.blocked
      && (!t.exited ==>
            t.outbox == s.outbox + SendsTo(users, Verbatim(m.text))
                        + [Send(m.fromId.value, BroadcastDone(CountDelivered(users, Verbatim(m.text), api, |s.outbox|)))])
  {
    BroadcastReports(s, m.text, m.fromId.value, order(MappedUsers(s.mappings)), api);
  }

  /** An admin's media without a reply only gets the notice that media broadcasts are unsupported. */
  lemma AdminMediaNotBroadcast(s: State, primary: int, m: Message, now: int,
                               order: set<int> -> seq<int>, logFile: Option<seq<string>>, api: Api)
    requires Truthy(m.fromId) && m.text == "" && HasMedia(m)
    requires m.fromId.value !in s.blocked && m.fromId.value in s.admins && m.replyTo.None?
    ensures var t := OnMessage(s, primary, m, now, order, logFile, api);
      && t.mappings == s.mappings && t.admins == s.admins && t.blocked == s.blocked
      && (!s.exited ==> FirstCall(s, t) == Some(Send(m.fromId.value, MediaBroadcastUnsupported)))
      && (!t.exited ==> t.outbox == s.outbox + (if s.exited then [] else [Send(m.fromId.value, MediaBroadcastUnsupported)]))
  {
  }

  /**
   * A user's message is forwarded to the admins until the first delivered
   * forward; a mapping from the returned id to the user is added exactly when
   * that id is truthy. The admin and blocked sets do not change.
   */
  lemma UserMessageForwarded(s: State, primary: int, m: Message, now: int,
                             order: set<int> -> seq<int>, logFile: Option<seq<string>>, api: Api)
    requires Truthy(m.fromId) && (m.text != "" || HasMedia(m))
    requires m.fromId.value !in s.blocked && m.fromId.value !in s.admins
    requires !s.exited
    ensures var u := m.fromId.value;
      var t := OnMessage(s, primary, m, now, order, logFile, api);
      var fid := ForwardRun(s, u, m.messageId, order(s.admins), api).1;
      && t.admins == s.admins && t.blocked == s.blocked
      && t.mappings == (if Truthy(fid) then Put(s.mappings, fid.value, u, now) else s.mappings)
      && (Truthy(fid) ==> Lookup(t.mappings, fid.value) == Some(u))
      && (!t.exited ==> fid == Flatten(FirstAnswer(u, m.messageId, order(s.admins), api, |s.outbox|)))
      && (!t.exited ==> t.outbox == s.outbox + Tries(u, m.messageId, order(s.admins), api, |s.outbox|))
  {
    var u := m.fromId.value;
    ForwardFirstSuccess(s, u, m.messageId, order(s.admins), api);
    var fid := ForwardRun(s, u, m.messageId, order(s.admins), api).1;
    if Truthy(fid) {
      PutThenLookup(ForwardRun(s, u, m.messageId, order(s.admins), api).0.mappings, fid.value, u, now);
    }
  }

  /** Text that does not start with `/` never reaches an admin command, so no set changes. */
  lemma MessageKeepsAccess(s: State, primary: int, m: Message, now: int,
                           order: set<int> -> seq<int>, logFile: Option<seq<string>>, api: Api)
    requires !StartsWithSlash(m.text)
    ensures var t := OnMessage(s, primary, m, now, order, logFile, api);
      t.admins == s.admins && t.blocked == s.blocked
  {
  }

  lemma SplitPanel()
    ensures Split("/panel") == ["/panel"]
    ensures ParseAdminCommand("/panel") == ShowPanel
  {
    var w := "/panel";
    forall i | 0 <= i < |w| ensures !IsSpace(w[i]) && LowerChar(w[i]) == w[i] {
    }
    SplitWord(w);
    LowerUnchanged(w);
  }

  /**
   * A text starting with `/` is a `handle_command` command: it changes no set
   * and no mapping, and it only answers the sender (even when it is an
   * admin's reply to a forwarded message, which is therefore not relayed).
   */
  lemma CommandOnlyAnswers(s: State, primary: int, m: Message,
                           order: set<int> -> seq<int>, logFile: Option<seq<string>>, api: Api)
    requires m.fromId.Some?
    ensures var t := OnCommand(s, primary, m, order, logFile, api);
      && t.mappings == s.mappings && t.admins == s.admins && t.blocked == s.blocked
      && OnlyToSender(s, t, m.fromId.value)
  {
    var u := m.fromId.value;
    var t := OnCommand(s, primary, m, order, logFile, api);
    if u in s.blocked {
      assert t == s;
    } else if m.text == "/start" {
      AttemptToSender(s, u, Welcome, api);
    } else if m.text == "/help" {
      AttemptToSender(s, u, if u in s.admins then AdminHelp else UserHelp, api);
    } else if m.text == "/status" && u in s.admins {
      AttemptToSender(s, u, StatusReport(|s.admins|, |MappedUsers(s.mappings)|, |s.mappings|, |s.blocked|, s.restartCount), api);
    } else if m.text == "/panel" && u in s.admins {
      PanelOnlyAnswers(s, primary, u, order, logFile, api);
      AttemptToSender(s, u, PanelText, api);
    } else {
      assert t == s;
    }
  }

  /**
   * Which answer each text gets from `handle_command`. A message without a
   * sender, or from a blocked sender, gets none. Otherwise `/start` gets the
   * welcome and `/help` the help for admins or for users. `/status` gets the
   * status report when the sender is an admin, and `/panel` the panel. Any
   * other text, and `/status` or `/panel` from a non-admin, gets nothing.
   */
  lemma CommandReplies(s: State, primary: int, m: Message,
                       order: set<int> -> seq<int>, logFile: Option<seq<string>>, api: Api)
    ensures m.fromId.None? || m.fromId.value in s.blocked ==> OnCommand(s, primary, m, order, logFile, api) == s
    ensures m.fromId.Some? && m.fromId.value !in s.blocked ==>
      var u := m.fromId.value;
      var t := OnCommand(s, primary, m, order, logFile, api);
      && (m.text == "/start" ==> t == Attempt(s, Send(u, Welcome), api).0)
      && (m.text == "/help" ==> t == Attempt(s, Send(u, if u in s.admins then AdminHelp else UserHelp), api).0)
      && (m.text == "/status" && u in s.admins ==>
            t == Attempt(s, Send(u, StatusReport(|s.admins|, |MappedUsers(s.mappings)|, |s.mappings|, |s.blocked|, s.restartCount)), api).0)
      && (m.text == "/panel" && u in s.admins ==> t == Attempt(s, Send(u, PanelText), api).0)
      && ((m.text == "/status" || m.text == "/panel") && u !in s.admins ==> t == s)
      && (m.text != "/start" && m.text != "/help" && m.text != "/status" && m.text != "/panel" ==> t == s)
  {
    if m.fromId.Some? && m.fromId.value !in s.blocked && m.text == "/panel" && m.fromId.value in s.admins {
      PanelOnlyAnswers(s, primary, m.fromId.value, order, logFile, api);
    }
  }

  /** `/panel` from an admin sends the panel text to that admin and does nothing else. */
  lemma PanelOnlyAnswers(s: State, primary: int, u: int,
                         order: set<int> -> seq<int>, logFile: Option<seq<string>>, api: Api)
    requires u in s.admins
    ensures Split("/panel") != []
    ensures OnAdminCommand(s, primary, u, "/panel", order, logFile, api) == Attempt(s, Send(u, PanelText), api).0
  {
    SplitPanel();
  }

  /** One send to `u` is a call to `u` only, and changes no set and no mapping. */
  lemma AttemptToSender(s: State, u: int, msg: Msg, api: Api)
    ensures var t := Attempt(s, Send(u, msg), api).0;
      && t.mappings == s.mappings && t.admins == s.admins && t.blocked == s.blocked
      && OnlyToSender(s, t, u)
  {
  }

  /** The `main` split: a `/` text goes to `handle_command` and never to `handle_message`. */
  lemma SlashUpdateIsCommand(s: State, primary: int, up: Update, now: int,
                             order: set<int> -> seq<int>, logFile: Option<seq<string>>, api: Api)
    requires up.message.Some? && StartsWithSlash(up.message.value.text)
    ensures var t := OnUpdate(s, primary, up, now, order, logFile, api);
      && t == OnCommand(s, primary, up.message.value, order, logFile, api)
      && t.mappings == s.mappings && t.admins == s.admins && t.blocked == s.blocked
  {
    if up.message.value.fromId.Some? {
      CommandOnlyAnswers(s, primary, up.message.value, order, logFile, api);
    }
  }

  /**
   * No update that `main` handles changes the admin or the blocked set: the
   * commands that would are only reachable through `handle_message`, which
   * never sees a text starting with `/`.
   */
  lemma UpdateKeepsAccess(s: State, primary: int, up: Update, now: int,
                          order: set<int> -> seq<int>, logFile: Option<seq<string>>, api: Api)
    ensures var t := OnUpdate(s, primary, up, now, order, logFile, api);
      t.admins == s.admins && t.blocked == s.blocked
  {
    if up.message.Some? {
      var m := up.message.value;
      if StartsWithSlash(m.text) {
        SlashUpdateIsCommand(s, primary, up, now, order, logFile, api);
      } else {
        MessageKeepsAccess(s, primary, m, now, order, logFile, api);
      }
    }
  }

  /** `handle_message` keeps the primary admin protected, whatever the text. */
  lemma MessageProtects(s: State, primary: int, m: Message, now: int,
                        order: set<int> -> seq<int>, logFile: Option<seq<string>>, api: Api)
    requires Protected(s, primary)
    ensures Protected(OnMessage(s, primary, m, now, order, logFile, api), primary)
  {
    if Truthy(m.fromId) && !(m.text == "" && !HasMedia(m)) {
      var u := m.fromId.value;
      if u !in s.blocked && u in s.admins && m.replyTo.None? && StartsWithSlash(m.text) {
        AdminCommandProtects(s, primary, u, m.text, order, logFile, api);
      }
    }
  }

  /**
   * The relay round trip with the primary admin 999 alone: user 111's "hello"
   * (message 7) is forwarded to 999 and comes back as message 555, which is
   * then mapped to 111; 999's reply "hi there" to message 555 reaches 111, and
   * no further mapping is made.
   */
  lemma RelayRoundTrip(order: set<int> -> seq<int>, logFile: Option<seq<string>>, api: Api, now: int, later: int)
    requires order({999}) == [999]
    requires api(0, Forward(111, 7, 999)) == Delivered(Some(555))
    requires api(1, Send(111, Verbatim("hi there"))).Delivered?
    requires now <= later < now + DAY
    ensures var s0 := Initial(999);
      var s1 := OnUpdate(s0, 999, Update(Some(1), Some(Message(7, Some(111), "hello", {"text"}, None))), now, order, logFile, api);
      var s2 := OnUpdate(s1, 999, Update(Some(2), Some(Message(8, Some(999), "hi there", {"text"}, Some(555)))), later, order, logFile, api);
      && s1.mappings == map[555 := Entry(111, now)]
      && s1.outbox == [Forward(111, 7, 999)]
      && s2.mappings == s1.mappings
      && s2.outbox == [Forward(111, 7, 999), Send(111, Verbatim("hi there"))]
  {
    assert !StartsWithSlash("hello") && !StartsWithSlash("hi there");
  }
}
