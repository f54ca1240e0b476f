/** The inbox query of get_messages, as functions of the `messages`
    collection: select the messages the user sent or received, sort them
    newest first, keep the first 100. */
module Inbox {
  import opened Types

  /** `{"$or": [{"sender_id": u}, {"recipient_ids": u}]}`: matching an array
      field against a value tests membership. */
  predicate Involves(m: Message, u: UserId)
  {
    m.senderId == u || u in m.recipientIds
  }

  /** The messages of `ms` that involve u, in natural order. */
  function Involving(ms: seq<Message>, u: UserId): (r: seq<Message>)
    ensures |r| <= |ms|
    ensures forall m | m in r :: m in ms && Involves(m, u)
  {
    if ms == [] then []
    else
      var rest := Involving(ms[..|ms| - 1], u);
      if Involves(ms[|ms| - 1], u) then rest + [ms[|ms| - 1]] else rest
  }

  /** Each message occurs in the selection as often as in the collection if it
      involves u, and not at all otherwise. */
  lemma {:induction false} InvolvingCounts(ms: seq<Message>, u: UserId)
    ensures forall m :: multiset(Involving(ms, u))[m] == if Involves(m, u) then multiset(ms)[m] else 0
  {
    if ms != [] {
      InvolvingCounts(ms[..|ms| - 1], u);
      assert ms == ms[..|ms| - 1] + [ms[|ms| - 1]];
    }
  }

  predicate NewestFirst(s: seq<Message>)
  {
    forall i, j | 0 <= i < j < |s| :: s[i].timestamp >= s[j].timestamp
  }

  /** Puts m before the first message of `sorted` that is no newer than m. */
  function Insert(m: Message, sorted: seq<Message>): (r: seq<Message>)
    ensures |r| == |sorted| + 1
  {
    if sorted == [] || sorted[0].timestamp <= m.timestamp then [m] + sorted
    else [sorted[0]] + Insert(m, sorted[1..])
  }

  /** `.sort("timestamp", -1)`: newest first; messages with equal timestamps
      keep their natural order. */
  function SortNewestFirst(s: seq<Message>): (r: seq<Message>)
    ensures |r| == |s|
  {
    if s == [] then [] else Insert(s[0], SortNewestFirst(s[1..]))
  }

  lemma {:induction false} InsertCounts(m: Message, sorted: seq<Message>)
    ensures multiset(Insert(m, sorted)) == multiset(sorted) + multiset{m}
  {
    if sorted != [] && sorted[0].timestamp > m.timestamp {
      InsertCounts(m, sorted[1..]);
      assert sorted == [sorted[0]] + sorted[1..];
    }
  }

  lemma ConsNewestFirst(head: Message, s: seq<Message>)
    requires NewestFirst(s)
    requires forall j | 0 <= j < |s| :: head.timestamp >= s[j].timestamp
    ensures NewestFirst([head] + s)
  {
  }

  lemma {:induction false} InsertKeepsOrder(m: Message, sorted: seq<Message>)
    requires NewestFirst(sorted)
    ensures NewestFirst(Insert(m, sorted))
  {
    if sorted == [] || sorted[0].timestamp <= m.timestamp {
      ConsNewestFirst(m, sorted);
    } else {
      var head, tail := sorted[0], sorted[1..];
      InsertKeepsOrder(m, tail);
      InsertCounts(m, tail);
      var ins := Insert(m, tail);
      forall j | 0 <= j < |ins| ensures head.timestamp >= ins[j].timestamp {
        assert ins[j] in multiset(ins);
        if ins[j] != m {
          assert ins[j] in multiset(tail);
          var k :| 0 <= k < |tail| && tail[k] == ins[j];
          assert sorted[k + 1] == ins[j];
        }
      }
      ConsNewestFirst(head, ins);
    }
  }

  /** The sort orders newest first and is a permutation of its input. */
  lemma {:induction false} SortNewestFirstCorrect(s: seq<Message>)
    ensures NewestFirst(SortNewestFirst(s))
    ensures multiset(SortNewestFirst(s)) == multiset(s)
  {
    if s != [] {
      SortNewestFirstCorrect(s[1..]);
      InsertKeepsOrder(s[0], SortNewestFirst(s[1..]));
      InsertCounts(s[0], SortNewestFirst(s[1..]));
      assert s == [s[0]] + s[1..];
    }
  }

  /** The `.limit(100)` of get_messages. */
  const PageSize: nat := 100

  /** The messages get_messages returns to u, before the sender names are added. */
  function InboxQuery(ms: seq<Message>, u: UserId): (r: seq<Message>)
    ensures |r| <= PageSize
    ensures |r| == if |Involving(ms, u)| <= PageSize then |Involving(ms, u)| else PageSize
  {
    var sorted := SortNewestFirst(Involving(ms, u));
    if |sorted| <= PageSize then sorted else sorted[..PageSize]
  }

  /** Every returned message involves u, the answer is newest first and holds
      nothing the collection does not. */
  lemma InboxQuerySound(ms: seq<Message>, u: UserId)
    ensures var r := InboxQuery(ms, u);
      && (forall i | 0 <= i < |r| :: Involves(r[i], u))
      && NewestFirst(r)
      && multiset(r) <= multiset(Involving(ms, u))
  {
    var sel := Involving(ms, u);
    var sorted := SortNewestFirst(sel);
    SortNewestFirstCorrect(sel);
    var r := InboxQuery(ms, u);
    var rest := sorted[|r|..];
    assert sorted == r + rest;
    assert multiset(sorted) == multiset(r) + multiset(rest);
    forall i | 0 <= i < |r| ensures Involves(r[i], u) {
      assert r[i] == sorted[i];
      assert r[i] in multiset(sel);
    }
  }

  /** Nothing involving u is left out except messages no newer than every
      returned one, and nothing at all when at most 100 messages involve u. */
  lemma InboxQueryNewest(ms: seq<Message>, u: UserId)
    ensures var r := InboxQuery(ms, u);
      && (|Involving(ms, u)| <= PageSize ==> multiset(r) == multiset(Involving(ms, u)))
      && (forall m | m in multiset(Involving(ms, u)) - multiset(r) ::
            forall i | 0 <= i < |r| :: r[i].timestamp >= m.timestamp)
  {
    var sel := Involving(ms, u);
    var sorted := SortNewestFirst(sel);
    SortNewestFirstCorrect(sel);
    var r := InboxQuery(ms, u);
    assert r == sorted[..|r|];
    if |sel| <= PageSize {
      assert r == sorted;
    }
    PrefixNoOlder(sorted, |r|);
  }

  /** In a newest-first list, nothing after the first n is newer than any of
      them, and the rest is what cutting the first n leaves out. */
  lemma PrefixNoOlder(sorted: seq<Message>, n: nat)
    requires NewestFirst(sorted) && n <= |sorted|
    ensures forall m | m in multiset(sorted) - multiset(sorted[..n]) ::
      forall i | 0 <= i < n :: sorted[i].timestamp >= m.timestamp
  {
    var front, back := sorted[..n], sorted[n..];
    assert sorted == front + back;
    assert multiset(sorted) - multiset(front) == multiset(back);
    forall m: Message | m in multiset(back) ensures forall i | 0 <= i < n :: sorted[i].timestamp >= m.timestamp {
      var k :| 0 <= k < |back| && back[k] == m;
      assert sorted[n + k] == m;
    }
  }

  /** A message strictly newer than all others is sorted first. */
  lemma NewestSortsFirst(rest: seq<Message>, m: Message)
    requires forall x | x in rest :: x.timestamp < m.timestamp
    ensures var sorted := SortNewestFirst(rest + [m]); |sorted| > 0 && sorted[0] == m
  {
    var sorted := SortNewestFirst(rest + [m]);
    SortNewestFirstCorrect(rest + [m]);
    assert m in multiset(sorted);
    var k :| 0 <= k < |sorted| && sorted[k] == m;
    var first := sorted[0];
    assert first.timestamp >= m.timestamp;
    assert first in multiset(rest + [m]);
    assert first !in rest;
  }

  /** A message newer than all earlier ones comes first in the inbox of
      everyone it involves: what send_message appends, get_messages shows on
      top while the clock moves forward. */
  lemma NewMessageFirst(ms: seq<Message>, m: Message, u: UserId)
    requires Involves(m, u)
    requires forall x | x in ms :: x.timestamp < m.timestamp
    ensures |InboxQuery(ms + [m], u)| > 0 && InboxQuery(ms + [m], u)[0] == m
  {
    var all := ms + [m];
    assert all[..|all| - 1] == ms;
    var rest := Involving(ms, u);
    assert Involving(all, u) == rest + [m];
    NewestSortsFirst(rest, m);
  }
}
