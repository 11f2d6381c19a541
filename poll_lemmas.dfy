/**
 * Properties of the bookkeeping of `main`'s poll loop and of the
 * self-healing counters: the offset, the consecutive-error counter, the
 * restart thresholds, and what a whole session keeps.
 */
module PollLemmas {
  import opened Wrappers
  import opened Relay
  import opened CommandLemmas
  import opened RoutingLemmas

  /** `handle_error` restarts exactly on the `MAX_ERRORS`-th error, counting one restart. */
  lemma ErrorThreshold(s: State)
    requires !s.exited
    ensures var t := ErrorCounted(s);
      && (t.exited <==> s.errorCount + 1 >= MAX_ERRORS)
      && t.restartCount == (if t.exited then s.restartCount + 1 else s.restartCount)
      && (t.exited ==> t.outbox == s.outbox + [Notify(s.admins, RestartNotice(s.restartCount + 1))])
      && (!t.exited ==> t.outbox == s.outbox)
  {
  }

  /**
   * While the process stays up, the batch loop moves the offset past every
   * update that carries an id.
   */
  lemma {:induction false} BatchCoversIds(s: State, primary: int, offset: int, ups: seq<Update>, now: int,
                                          order: set<int> -> seq<int>, logFile: Option<seq<string>>, api: Api)
    ensures var r := OnBatch(s, primary, offset, ups, now, order, logFile, api);
      !r.0.exited ==> forall i :: 0 <= i < |ups| && ups[i].updateId.Some? ==> r.1 >= ups[i].updateId.value + 1
    decreases |ups|
  {
    if ups != [] && !s.exited {
      var s1 := OnUpdate(s, primary, ups[0], now, order, logFile, api);
      var o1 := if s1.exited then offset else NextOffset(offset, ups[0]);
      BatchCoversIds(s1, primary, o1, ups[1..], now, order, logFile, api);
      var r := OnBatch(s, primary, offset, ups, now, order, logFile, api);
      if !r.0.exited {
        assert !s1.exited;
        forall i | 0 <= i < |ups| && ups[i].updateId.Some? ensures r.1 >= ups[i].updateId.value + 1 {
          if i > 0 {
            assert ups[i] == ups[1..][i - 1];
          }
        }
      }
    }
  }

  /** An update without an id is handled but does not move the offset. */
  lemma UpdateWithoutIdKeepsOffset(s: State, primary: int, offset: int, up: Update, now: int,
                                   order: set<int> -> seq<int>, logFile: Option<seq<string>>, api: Api)
    requires up.updateId.None? && !s.exited
    ensures OnBatch(s, primary, offset, [up], now, order, logFile, api)
         == (OnUpdate(s, primary, up, now, order, logFile, api), offset)
  {
    var s1 := OnUpdate(s, primary, up, now, order, logFile, api);
    assert [up][1..] == [];
  }

  /** The offset never decreases over a session. */
  lemma {:induction false} OffsetMonotone(s: State, primary: int, c: Cursor, cycles: seq<Cycle>,
                                          order: set<int> -> seq<int>, logFile: Option<seq<string>>, api: Api)
    ensures Serve(s, primary, c, cycles, order, logFile, api).1.offset >= c.offset
    decreases |cycles|
  {
    if cycles != [] && !s.exited {
      var (s1, c1) := OnFetch(s, primary, c, cycles[0], order, logFile, api);
      OffsetMonotone(s1, primary, c1, cycles[1..], order, logFile, api);
    }
  }

  /** A live process has seen fewer than `MAX_CONSECUTIVE_ERRORS` failed fetches in a row. */
  predicate Calm(s: State, c: Cursor) {
    !s.exited ==> c.consecutiveErrors < MAX_CONSECUTIVE_ERRORS
  }

  /**
   * One pass of the loop keeps the counter below the threshold while the
   * process is up: a failed fetch that reaches it resets it (after the
   * pause), a failure of the loop body that reaches it restarts, and a batch
   * resets it to 0.
   */
  lemma FetchKeepsCalm(s: State, primary: int, c: Cursor, cycle: Cycle,
                       order: set<int> -> seq<int>, logFile: Option<seq<string>>, api: Api)
    requires Calm(s, c)
    ensures var r := OnFetch(s, primary, c, cycle, order, logFile, api);
      && Calm(r.0, r.1)
      && (cycle.fetch.Batch? ==> r.1.consecutiveErrors == 0)
      && (!cycle.fetch.Batch? ==> r.1.offset == c.offset)
      && (cycle.fetch.NotOk? ==> r == (s, c))
  {
  }

  /** The fifth failure of the loop body in a row restarts the bot. */
  lemma FifthMalformedRestarts(s: State, primary: int, c: Cursor, cycle: Cycle,
                               order: set<int> -> seq<int>, logFile: Option<seq<string>>, api: Api)
    requires !s.exited && cycle.fetch.Malformed? && c.consecutiveErrors + 1 >= MAX_CONSECUTIVE_ERRORS
    ensures var r := OnFetch(s, primary, c, cycle, order, logFile, api);
      && r.0.exited && r.0.restartCount == s.restartCount + 1
      && r.0.outbox == s.outbox + [Notify(s.admins, RestartNotice(s.restartCount + 1))]
  {
  }

  /**
   * The fifth empty fetch in a row only pauses: the counter starts again from
   * 0 and the bot is not restarted for it. When the fetch raised, the error also
   * counts toward `handle_error`, which restarts only at its own threshold.
   */
  lemma FifthEmptyFetchResets(s: State, primary: int, c: Cursor, cycle: Cycle,
                              order: set<int> -> seq<int>, logFile: Option<seq<string>>, api: Api)
    requires cycle.fetch.NoUpdates? && c.consecutiveErrors + 1 >= MAX_CONSECUTIVE_ERRORS
    ensures var r := OnFetch(s, primary, c, cycle, order, logFile, api);
      && (!cycle.fetch.raised ==> r == (s, Cursor(c.offset, 0)))
      && (cycle.fetch.raised ==> r == (ErrorCounted(s), Cursor(c.offset, 0)))
      && (cycle.fetch.raised && !s.exited && s.errorCount + 1 < MAX_ERRORS ==> !r.0.exited && r.0.outbox == s.outbox)
  {
  }

  /**
   * A body with a truthy `ok` whose `result` cannot be iterated fails after the
   * counter was reset: the counter ends at 1 whatever it was, so this failure
   * never restarts the bot, however many came before it.
   */
  lemma BadResultCountsOnce(s: State, primary: int, c: Cursor, now: int,
                            order: set<int> -> seq<int>, logFile: Option<seq<string>>, api: Api)
    ensures var r := OnFetch(s, primary, c, Cycle(BadResult, now), order, logFile, api);
      r.0 == s && r.1 == Cursor(c.offset, 1)
  {
  }

  lemma {:induction false} ServeKeepsCalm(s: State, primary: int, c: Cursor, cycles: seq<Cycle>,
                                          order: set<int> -> seq<int>, logFile: Option<seq<string>>, api: Api)
    requires Calm(s, c)
    ensures var r := Serve(s, primary, c, cycles, order, logFile, api);
      Calm(r.0, r.1)
    decreases |cycles|
  {
    if cycles != [] && !s.exited {
      FetchKeepsCalm(s, primary, c, cycles[0], order, logFile, api);
      var (s1, c1) := OnFetch(s, primary, c, cycles[0], order, logFile, api);
      ServeKeepsCalm(s1, primary, c1, cycles[1..], order, logFile, api);
    }
  }

  lemma {:induction false} BatchKeepsAccess(s: State, primary: int, offset: int, ups: seq<Update>, now: int,
                                            order: set<int> -> seq<int>, logFile: Option<seq<string>>, api: Api)
    ensures var r := OnBatch(s, primary, offset, ups, now, order, logFile, api);
      r.0.admins == s.admins && r.0.blocked == s.blocked
    decreases |ups|
  {
    if ups != [] && !s.exited {
      UpdateKeepsAccess(s, primary, ups[0], now, order, logFile, api);
      var s1 := OnUpdate(s, primary, ups[0], now, order, logFile, api);
      var o1 := if s1.exited then offset else NextOffset(offset, ups[0]);
      BatchKeepsAccess(s1, primary, o1, ups[1..], now, order, logFile, api);
    }
  }

  lemma {:induction false} ServeKeepsAccess(s: State, primary: int, c: Cursor, cycles: seq<Cycle>,
                                            order: set<int> -> seq<int>, logFile: Option<seq<string>>, api: Api)
    ensures var r := Serve(s, primary, c, cycles, order, logFile, api);
      r.0.admins == s.admins && r.0.blocked == s.blocked
    decreases |cycles|
  {
    if cycles != [] && !s.exited {
      if cycles[0].fetch.Batch? {
        BatchKeepsAccess(s, primary, c.offset, cycles[0].fetch.updates, cycles[0].now, order, logFile, api);
      }
      var (s1, c1) := OnFetch(s, primary, c, cycles[0], order, logFile, api);
      ServeKeepsAccess(s1, primary, c1, cycles[1..], order, logFile, api);
    }
  }

  /**
   * Over a whole run of `main`, the admin set stays the primary admin alone
   * and nobody is ever blocked, however the platform answers; the
   * consecutive-error counter stays below its threshold while the bot is up.
   */
  lemma SessionKeepsAccess(primary: int, hasToken: bool, cycles: seq<Cycle>,
                           order: set<int> -> seq<int>, logFile: Option<seq<string>>, api: Api)
    ensures var r := Session(primary, hasToken, cycles, order, logFile, api);
      && r.0.admins == (if primary != 0 then {primary} else {})
      && r.0.blocked == {}
      && Calm(r.0, r.1)
      && (hasToken && primary != 0 ==> Protected(r.0, primary))
  {
    var s := Initial(primary);
    if hasToken && primary != 0 {
      var start := s.(outbox := [Notify(s.admins, Started)]);
      ServeKeepsAccess(start, primary, Cursor(0, 0), cycles, order, logFile, api);
      ServeKeepsCalm(start, primary, Cursor(0, 0), cycles, order, logFile, api);
    }
  }
}
