/**
 * Properties of `handle_admin_commands`: what each command does to the admin
 * and blocked sets, the protections of the primary admin, and the argument
 * errors that only reply or do nothing.
 */
module CommandLemmas {
  import opened Wrappers
  import opened Text
  import opened Relay

  /** The primary admin is an admin and is not blocked. */
  predicate Protected(s: State, primary: int) {
    primary in s.admins && primary !in s.blocked
  }

  /** Every id command keeps the primary admin protected. */
  lemma IdCommandProtects(s: State, primary: int, sender: int, c: Command, api: Api)
    requires c.AddAdmin? || c.RemoveAdmin? || c.Block? || c.Unblock?
    requires Protected(s, primary)
    ensures Protected(RunIdCommand(s, primary, sender, c, api), primary)
    ensures RunIdCommand(s, primary, sender, c, api).mappings == s.mappings
  {
  }

  /** No branch of `handle_admin_commands` removes the primary admin or blocks it. */
  lemma RunCommandProtects(s: State, primary: int, sender: int, c: Command,
                           order: set<int> -> seq<int>, logFile: Option<seq<string>>, api: Api)
    requires Protected(s, primary)
    ensures Protected(RunCommand(s, primary, sender, c, order, logFile, api), primary)
  {
    if c.AddAdmin? || c.RemoveAdmin? || c.Block? || c.Unblock? {
      IdCommandProtects(s, primary, sender, c, api);
    }
  }

  /** No admin command, from anyone, removes the primary admin or blocks it. */
  lemma AdminCommandProtects(s: State, primary: int, sender: int, text: string,
                             order: set<int> -> seq<int>, logFile: Option<seq<string>>, api: Api)
    requires Split(text) != []
    requires Protected(s, primary)
    ensures Protected(OnAdminCommand(s, primary, sender, text, order, logFile, api), primary)
  {
    if sender in s.admins {
      RunCommandProtects(s, primary, sender, ParseAdminCommand(text), order, logFile, api);
    }
  }

  /** The first message recorded after state `s`, when there is one. */
  function FirstCall(s: State, t: State): Option<Action> {
    if |t.outbox| > |s.outbox| && s.outbox <= t.outbox then Some(t.outbox[|s.outbox|]) else None
  }

  /** `/removeadmin P` for the primary admin only answers that it cannot be removed. */
  lemma PrimaryCannotBeRemoved(s: State, primary: int, sender: int, api: Api)
    ensures var t := RunIdCommand(s, primary, sender, RemoveAdmin(primary), api);
      && t.admins == s.admins && t.blocked == s.blocked && t.mappings == s.mappings
      && (!s.exited ==> FirstCall(s, t) == Some(Send(sender, CannotRemovePrimary)))
  {
  }

  /** `/removeadmin X` for another admin removes exactly X; for a non-admin it only replies. */
  lemma RemoveAdminEffect(s: State, primary: int, sender: int, x: int, api: Api)
    requires x != primary
    ensures var t := RunIdCommand(s, primary, sender, RemoveAdmin(x), api);
      && t.admins == s.admins - {x} && t.blocked == s.blocked && t.mappings == s.mappings
      && (!s.exited ==> FirstCall(s, t) == Some(Send(sender, if x in s.admins then AdminRemoved(x) else NotAnAdmin)))
  {
  }

  /** `/block X` is refused exactly when X is an admin; otherwise X joins the blocked set. */
  lemma BlockFailsIffAdmin(s: State, primary: int, sender: int, x: int, api: Api)
    ensures var t := RunIdCommand(s, primary, sender, Block(x), api);
      && t.blocked == (if x in s.admins then s.blocked else s.blocked + {x})
      && t.admins == s.admins && t.mappings == s.mappings
      && (!s.exited ==> FirstCall(s, t) == Some(Send(sender, if x in s.admins then CannotBlockAdmin else UserBlocked(x))))
  {
  }

  /** `/unblock X` removes X when it is blocked and otherwise answers that it is not. */
  lemma UnblockEffect(s: State, primary: int, sender: int, x: int, api: Api)
    ensures var t := RunIdCommand(s, primary, sender, Unblock(x), api);
      && t.blocked == s.blocked - {x}
      && t.admins == s.admins && t.mappings == s.mappings
      && (!s.exited ==> FirstCall(s, t) == Some(Send(sender, if x in s.blocked then UserUnblocked(x) else NotBlocked)))
  {
  }

  /** `/addadmin X` inserts X into the admin set; doing it again changes no set. */
  lemma AddAdminIdempotent(s: State, primary: int, sender: int, x: int, api: Api)
    ensures var t := RunIdCommand(s, primary, sender, AddAdmin(x), api);
      && t.admins == s.admins + {x} && t.blocked == s.blocked && t.mappings == s.mappings
      && (!s.exited ==> FirstCall(s, t) == Some(Send(sender, AdminAdded(x))))
      && var u := RunIdCommand(t, primary, sender, AddAdmin(x), api);
         u.admins == t.admins && u.blocked == t.blocked && u.mappings == t.mappings
  {
  }

  // ---------------------------------------------------------------- from text to command

  /** The four id verbs are already in lower case. */
  lemma LowerOfVerb(verb: string)
    requires TakesId(verb)
    ensures Lower(verb) == verb
  {
    forall i | 0 <= i < |verb| ensures LowerChar(verb[i]) == verb[i] {
    }
    LowerUnchanged(verb);
  }

  /** A verb followed by a printed id parses as that id command. */
  lemma ParseIdCommandText(verb: string, x: int)
    requires TakesId(verb)
    ensures Split(verb + " " + IntToString(x)) != []
    ensures ParseAdminCommand(verb + " " + IntToString(x)) == IdCommand(verb, x)
  {
    assert IsWord(verb);
    IntToStringIsWord(x);
    var words := [verb, IntToString(x)];
    assert JoinWords(words) == verb + " " + IntToString(x) by {
      assert words[1..] == [IntToString(x)];
    }
    SplitJoin(words);
    LowerOfVerb(verb);
    ParseIntRoundTrip(x);
  }

  /**
   * The same with any whitespace around and between the two tokens: `/block \t 42`
   * or `/block 42 ` parse as `/block 42` does.
   */
  lemma ParseIdCommandLayout(verb: string, x: int, seps: seq<string>)
    requires TakesId(verb)
    requires |seps| == 3 && Spaces(seps[0]) && Spaces(seps[1]) && Spaces(seps[2]) && seps[1] != []
    ensures Split(Layout([verb, IntToString(x)], seps)) != []
    ensures ParseAdminCommand(Layout([verb, IntToString(x)], seps)) == IdCommand(verb, x)
  {
    assert IsWord(verb);
    IntToStringIsWord(x);
    SplitLayout([verb, IntToString(x)], seps);
    LowerOfVerb(verb);
    ParseIntRoundTrip(x);
  }

  /** An admin's text that parses as `/addadmin X` adds X and leaves the blocked set alone. */
  lemma AddAdminText(s: State, primary: int, sender: int, text: string, x: int,
                     order: set<int> -> seq<int>, logFile: Option<seq<string>>, api: Api)
    requires Split(text) != [] && ParseAdminCommand(text) == AddAdmin(x)
    requires sender in s.admins
    ensures var t := OnAdminCommand(s, primary, sender, text, order, logFile, api);
      t.admins == s.admins + {x} && t.blocked == s.blocked
  {
    AddAdminIdempotent(s, primary, sender, x, api);
  }

  /** The text of an id command as an admin types it: the verb, a space, the id. */
  function IdCommandText(verb: string, x: int): (text: string)
    requires TakesId(verb)
    ensures Split(text) != [] && ParseAdminCommand(text) == IdCommand(verb, x)
  {
    ParseIdCommandText(verb, x);
    verb + " " + IntToString(x)
  }

  /**
   * `/addadmin X` does not consult the blocked set: a blocked X becomes an
   * admin and stays blocked, so an admin can be blocked at the same time.
   */
  lemma AddAdminIgnoresBlocked(s: State, primary: int, sender: int, x: int,
                               order: set<int> -> seq<int>, logFile: Option<seq<string>>, api: Api)
    requires sender in s.admins && x in s.blocked
    ensures var t := OnAdminCommand(s, primary, sender, IdCommandText("/addadmin", x), order, logFile, api);
      x in t.admins && x in t.blocked
  {
    AddAdminText(s, primary, sender, IdCommandText("/addadmin", x), x, order, logFile, api);
  }

  /** A second token that is not an integer only gets the "invalid ID" reply. */
  lemma InvalidIdOnlyReplies(s: State, primary: int, sender: int, text: string,
                             order: set<int> -> seq<int>, logFile: Option<seq<string>>, api: Api)
    requires sender in s.admins
    requires var parts := Split(text);
      |parts| >= 2 && TakesId(Lower(parts[0])) && ParseInt(parts[1]).None?
    ensures var t := OnAdminCommand(s, primary, sender, text, order, logFile, api);
      && t.admins == s.admins && t.blocked == s.blocked && t.mappings == s.mappings
      && (!s.exited ==> FirstCall(s, t) == Some(Send(sender, InvalidIdReply)))
      && (!t.exited ==> t.outbox == s.outbox + (if s.exited then [] else [Send(sender, InvalidIdReply)]))
  {
    assert ParseAdminCommand(text) == BadId;
    assert OnAdminCommand(s, primary, sender, text, order, logFile, api) == Attempt(s, Send(sender, InvalidIdReply), api).0;
  }

  /** The verbs `handle_admin_commands` knows. */
  predicate KnownVerb(verb: string) {
    TakesId(verb) || verb in {"/admins", "/blocked", "/panel", "/broadcast", "/restart", "/logs"}
  }

  /** Texts that match no branch of the `if`/`elif` chain. */
  lemma NoCommandText(text: string)
    requires Split(text) != []
    requires var verb := Lower(Split(text)[0]);
      !KnownVerb(verb) || ((TakesId(verb) || verb == "/broadcast") && |Split(text)| == 1)
    ensures ParseAdminCommand(text) == NoCommand
  {
    var parts := Split(text);
    var verb := Lower(parts[0]);
    if KnownVerb(verb) {
      assert |parts| == 1;
      assert verb != "/admins" && verb != "/blocked" && verb != "/panel" && verb != "/restart" && verb != "/logs";
    }
  }

  /**
   * An unknown verb, a verb that needs an argument without one, or a sender who
   * is not an admin: no state change and no reply.
   */
  lemma IgnoredCommands(s: State, primary: int, sender: int, text: string,
                        order: set<int> -> seq<int>, logFile: Option<seq<string>>, api: Api)
    requires Split(text) != []
    requires var verb := Lower(Split(text)[0]);
      || sender !in s.admins
      || !KnownVerb(verb)
      || ((TakesId(verb) || verb == "/broadcast") && |Split(text)| == 1)
    ensures OnAdminCommand(s, primary, sender, text, order, logFile, api) == s
  {
    if sender in s.admins {
      NoCommandText(text);
      assert OnAdminCommand(s, primary, sender, text, order, logFile, api)
          == RunCommand(s, primary, sender, NoCommand, order, logFile, api);
    }
  }
}
