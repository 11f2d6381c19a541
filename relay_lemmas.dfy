/**
 * Properties of the mapping store, of `forward_to_admin` and of
 * `broadcast_to_all_users`, proved about the functions of `Relay`.
 */
module RelayLemmas {
  import opened Wrappers
  import opened Relay

  // ---------------------------------------------------------------- mapping store

  /** The sweep keeps exactly the entries that are not older than a day, unchanged. */
  lemma SweptExactly(m: map<int, Entry>, now: int)
    ensures forall k :: k in Swept(m, now) <==> k in m && m[k].createdAt >= now - DAY
    ensures forall k :: k in Swept(m, now) ==> Swept(m, now)[k] == m[k]
  {
  }

  /** A second sweep at the same time removes nothing. */
  lemma SweptIdempotent(m: map<int, Entry>, now: int)
    ensures Swept(Swept(m, now), now) == Swept(m, now)
  {
  }

  /** After `add_mapping(key, user)` the key looks up `user`, whatever it held before. */
  lemma PutThenLookup(m: map<int, Entry>, key: int, user: int, now: int)
    ensures Lookup(Put(m, key, user, now), key) == Some(user)
    ensures Put(m, key, user, now)[key] == Entry(user, now)
  {
  }

  /** `add_mapping` leaves every other key as the sweep alone would. */
  lemma PutOtherKeys(m: map<int, Entry>, key: int, user: int, now: int, k: int)
    requires k != key
    ensures Lookup(Put(m, key, user, now), k) == Lookup(Swept(m, now), k)
  {
  }

  // ---------------------------------------------------------------- forwarding to admins

  /**
   * The forwards `forward_to_admin` makes for one message, as calls `at`,
   * `at + 1`, ...: to the admins in `order`, up to and including the first one
   * the platform delivers.
   */
  function Tries(user: int, mid: int, order: seq<int>, api: Api, at: nat): (r: seq<Action>)
    ensures |r| <= |order|
    ensures forall i :: 0 <= i < |r| ==> r[i] == Forward(user, mid, order[i])
    ensures forall i :: 0 <= i < |r| - 1 ==> !api(at + i, r[i]).Delivered?
    ensures |r| < |order| ==> |r| > 0 && api(at + |r| - 1, r[|r| - 1]).Delivered?
    decreases |order|
  {
    if order == [] then []
    else
      var a := Forward(user, mid, order[0]);
      [a] + (if api(at, a).Delivered? then [] else Tries(user, mid, order[1..], api, at + 1))
  }

  /** The result of `forward_to_admin` as an optional id: the first answer's id, or `None`. */
  function Flatten(a: Option<Option<int>>): Option<int> {
    match a
    case None => None
    case Some(x) => x
  }

  /**
   * While the process stays up, `forward_to_admin` returns the message id of
   * the first delivered forward in admin order (`None` when none is
   * delivered); it forwards to the admins in order up to that one and to no
   * one after it, and it changes no set and no mapping.
   */
  lemma {:induction false} ForwardFirstSuccess(s: State, user: int, mid: int, order: seq<int>, api: Api)
    requires !s.exited
    ensures var r := ForwardRun(s, user, mid, order, api);
      !r.0.exited ==>
        && r.1 == Flatten(FirstAnswer(user, mid, order, api, |s.outbox|))
        && r.0.outbox == s.outbox + Tries(user, mid, order, api, |s.outbox|)
        && r.0.restartCount == s.restartCount
    decreases |order|
  {
    if order != [] {
      var at := |s.outbox|;
      var a := Forward(user, mid, order[0]);
      if api(at, a).Delivered? {
        ForwardHit(s, user, mid, order, api);
      } else {
        var s1 := Attempt(s, a, api).0;
        ForwardStep(s, user, mid, order, api);
        if !s1.exited {
          ForwardFirstSuccess(s1, user, mid, order[1..], api);
          AppendAssociates(s.outbox, [a], Tries(user, mid, order[1..], api, at + 1));
        }
      }
    }
  }

  lemma AppendAssociates(x: seq<Action>, y: seq<Action>, z: seq<Action>)
    ensures x + y + z == x + (y + z)
  {
  }

  /** A delivered forward ends the loop with its answer. */
  lemma ForwardHit(s: State, user: int, mid: int, order: seq<int>, api: Api)
    requires !s.exited && order != []
    requires api(|s.outbox|, Forward(user, mid, order[0])).Delivered?
    ensures var a := Forward(user, mid, order[0]);
      && ForwardRun(s, user, mid, order, api)
         == (s.(outbox := s.outbox + [a]), api(|s.outbox|, a).messageId)
      && Tries(user, mid, order, api, |s.outbox|) == [a]
      && FirstAnswer(user, mid, order, api, |s.outbox|) == Some(api(|s.outbox|, a).messageId)
  {
    var a := Forward(user, mid, order[0]);
    assert Tries(user, mid, order, api, |s.outbox|) == [a];
  }

  /** A forward that is not delivered hands the rest of the loop the next admins and the next call. */
  lemma ForwardStep(s: State, user: int, mid: int, order: seq<int>, api: Api)
    requires !s.exited && order != []
    requires !api(|s.outbox|, Forward(user, mid, order[0])).Delivered?
    ensures var a := Forward(user, mid, order[0]);
      var s1 := Attempt(s, a, api).0;
      && ForwardRun(s, user, mid, order, api) == ForwardRun(s1, user, mid, order[1..], api)
      && (s1.exited ==> ForwardRun(s1, user, mid, order[1..], api).0.exited)
      && (!s1.exited ==> s1.outbox == s.outbox + [a] && s1.restartCount == s.restartCount)
      && Tries(user, mid, order, api, |s.outbox|) == [a] + Tries(user, mid, order[1..], api, |s.outbox| + 1)
      && FirstAnswer(user, mid, order, api, |s.outbox|) == FirstAnswer(user, mid, order[1..], api, |s.outbox| + 1)
  {
  }

  // ---------------------------------------------------------------- broadcast

  /**
   * A user is a mapped user iff some mapping points to it, so the number of
   * users with an open dialogue is at most the number of mappings (the two
   * counts of the status report).
   */
  lemma {:induction false} MappedUsersBound(m: map<int, Entry>)
    ensures forall u :: u in MappedUsers(m) <==> exists k :: k in m && m[k].userId == u
    ensures |MappedUsers(m)| <= |m|
    decreases |m|
  {
    if |m| > 0 {
      HasKey(m);
      var key :| key in m;
      var rest := m - {key};
      MappedUsersBound(rest);
      MappedUsersStep(m, key);
      SubsetSize(MappedUsers(m), MappedUsers(rest) + {m[key].userId});
    }
  }

  lemma HasKey(m: map<int, Entry>)
    requires |m| > 0
    ensures exists k :: k in m
  {
    if forall k :: k !in m {
      assert false;
    }
  }

  /** Removing one mapping removes at most its own user. */
  lemma MappedUsersStep(m: map<int, Entry>, k: int)
    requires k in m
    ensures |m - {k}| == |m| - 1
    ensures MappedUsers(m) <= MappedUsers(m - {k}) + {m[k].userId}
  {
    var rest := m - {k};
    forall u | u in MappedUsers(m) ensures u in MappedUsers(rest) + {m[k].userId} {
      var j :| j in m && m[j].userId == u;
      if j != k {
        assert j in rest;
      }
    }
  }

  lemma SubsetSize(a: set<int>, b: set<int>)
    requires a <= b
    ensures |a| <= |b|
  {
    assert b == a + (b - a);
  }

  lemma {:induction false} RecipientsMembers(admins: set<int>, blocked: set<int>, order: seq<int>)
    ensures forall x :: x in Recipients(admins, blocked, order) <==> x in order && x !in admins && x !in blocked
    decreases |order|
  {
    if order != [] {
      RecipientsMembers(admins, blocked, order[1..]);
      assert forall x :: x in order <==> x == order[0] || x in order[1..];
    }
  }

  lemma {:induction false} RecipientsDistinct(admins: set<int>, blocked: set<int>, order: seq<int>)
    requires Distinct(order)
    ensures Distinct(Recipients(admins, blocked, order))
    decreases |order|
  {
    if order != [] {
      var tail := order[1..];
      assert Distinct(tail) by {
        forall i, j | 0 <= i < j < |tail| ensures tail[i] != tail[j] {
          assert tail[i] == order[i + 1] && tail[j] == order[j + 1];
        }
      }
      RecipientsDistinct(admins, blocked, tail);
      RecipientsMembers(admins, blocked, tail);
      var rest := Recipients(admins, blocked, tail);
      if !(order[0] in blocked || order[0] in admins) {
        assert order[0] !in tail by {
          forall j | 0 <= j < |tail| ensures tail[j] != order[0] {
            assert tail[j] == order[j + 1];
          }
        }
        var r := [order[0]] + rest;
        assert Recipients(admins, blocked, order) == r;
        forall i, j | 0 <= i < j < |r| ensures r[i] != r[j] {
          assert r[j] == rest[j - 1] && rest[j - 1] in rest;
          if i > 0 {
            assert r[i] == rest[i - 1];
          }
        }
      }
    }
  }

  /**
   * The users a broadcast sends to are exactly the distinct mapped users that
   * are neither admins nor blocked, each once.
   */
  lemma BroadcastRecipients(m: map<int, Entry>, admins: set<int>, blocked: set<int>, order: seq<int>)
    requires Enumerates(order, MappedUsers(m))
    ensures var r := Recipients(admins, blocked, order);
      && (forall x :: x in r <==> x in MappedUsers(m) && x !in admins && x !in blocked)
      && Distinct(r)
  {
    RecipientsMembers(admins, blocked, order);
    assert Distinct(order);
    RecipientsDistinct(admins, blocked, order);
  }

  /**
   * While the process stays up, the broadcast loop sends the message to each
   * recipient once, in order, and nothing else, and its count is the number
   * of sends the platform delivered.
   */
  lemma {:induction false} BroadcastRunSends(s: State, order: seq<int>, msg: Msg, api: Api)
    requires !s.exited
    ensures var r := BroadcastRun(s, order, msg, api);
      var users := Recipients(s.admins, s.blocked, order);
      !r.0.exited ==>
        && r.0.outbox == s.outbox + SendsTo(users, msg)
        && r.1 == CountDelivered(users, msg, api, |s.outbox|)
        && r.0.restartCount == s.restartCount
    decreases |order|
  {
    if order != [] {
      if order[0] in s.blocked || order[0] in s.admins {
        BroadcastRunSends(s, order[1..], msg, api);
      } else {
        var (s1, reply) := Attempt(s, Send(order[0], msg), api);
        var r := BroadcastRun(s, order, msg, api);
        if !r.0.exited {
          assert !s1.exited;
          BroadcastRunSends(s1, order[1..], msg, api);
        }
      }
    }
  }

  /** The broadcast reports its count to the initiator after the last send. */
  lemma BroadcastReports(s: State, text: string, initiator: int, order: seq<int>, api: Api)
    requires !s.exited
    ensures var r := Broadcast(s, text, initiator, order, api);
      var users := Recipients(s.admins, s.blocked, order);
      !r.0.exited ==>
        && r.1 == CountDelivered(users, Verbatim(text), api, |s.outbox|)
        && r.0.outbox == s.outbox + SendsTo(users, Verbatim(text)) + [Send(initiator, BroadcastDone(r.1))]
  {
    BroadcastRunSends(s, order, Verbatim(text), api);
  }
}
