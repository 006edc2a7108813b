/** Round-robin selection of an upstream key, in memory and over the two slots of the
    database. */
module Router {
  import opened Common

  type Id = nat

  /** A key as the selector sees it; `ready` is enabled, verified and not cooling. */
  datatype Candidate = Candidate(id: Id, ready: bool)

  // ---- Visiting order ----------------------------------------------------------

  /** `x % n`, by taking away rounds. */
  function Wrap(x: nat, n: nat): (r: nat)
    requires n > 0
    ensures r < n
  {
    if x < n then x else Wrap(x - n, n)
  }

  lemma RemainderIsUnique(x: nat, q: nat, r: nat, n: nat)
    requires r < n && x == q * n + r
    ensures x % n == r
  {
    var p, t := x / n, x % n;
    assert x == p * n + t;
    MultiplesAreApart(p, q, n);
    MultiplesAreApart(q, p, n);
  }

  lemma {:induction false} WrapIsRemainder(x: nat, n: nat)
    requires n > 0
    ensures Wrap(x, n) == x % n
    decreases x
  {
    if x < n {
      RemainderIsUnique(x, 0, x, n);
    } else {
      WrapIsRemainder(x - n, n);
      var q := (x - n) / n;
      assert x - n == q * n + (x - n) % n;
      assert (q + 1) * n == q * n + n;
      RemainderIsUnique(x, q + 1, (x - n) % n, n);
    }
  }

  lemma {:induction false} WrapThenAdd(a: nat, b: nat, n: nat)
    requires n > 0
    ensures Wrap(Wrap(a, n) + b, n) == Wrap(a + b, n)
    decreases a
  {
    if a >= n {
      WrapThenAdd(a - n, b, n);
    }
  }

  /** The keys in the order the selector visits them from a cursor on. */
  function Visiting(keys: seq<Candidate>, cursor: nat): (r: seq<Candidate>)
    requires keys != []
    ensures |r| == |keys|
  {
    seq(|keys|, i requires 0 <= i < |keys| => keys[Wrap(cursor + i, |keys|)])
  }

  function Ready(s: seq<Candidate>): (r: seq<Candidate>)
    ensures forall c :: c in r <==> c in s && c.ready
  {
    if s == [] then []
    else if s[0].ready then [s[0]] + Ready(s[1..])
    else Ready(s[1..])
  }

  lemma {:induction false} ReadyOfConcat(a: seq<Candidate>, b: seq<Candidate>)
    ensures Ready(a + b) == Ready(a) + Ready(b)
  {
    if a == [] {
      assert a + b == b;
    } else {
      assert (a + b)[1..] == a[1..] + b;
      ReadyOfConcat(a[1..], b);
    }
  }

  lemma {:induction false} NoneReady(s: seq<Candidate>)
    requires forall i | 0 <= i < |s| :: !s[i].ready
    ensures Ready(s) == []
  {
    if s != [] {
      NoneReady(s[1..]);
    }
  }

  lemma VisitingAt(keys: seq<Candidate>, cursor: nat, i: nat)
    requires i < |keys|
    ensures Visiting(keys, cursor)[i] == keys[Wrap(cursor + i, |keys|)]
  {}

  lemma WrapsAround(x: nat, n: nat)
    requires 0 < n <= x
    ensures Wrap(x, n) == Wrap(x - n, n)
  {}

  /** After a choice at distance `k` the rest is visited first and the keys up to the
      chosen one last. */
  lemma VisitingAfter(keys: seq<Candidate>, cursor: nat, k: nat)
    requires k < |keys|
    ensures var s := Visiting(keys, cursor);
            Visiting(keys, Wrap(Wrap(cursor + k, |keys|) + 1, |keys|)) == s[k + 1..] + s[..k + 1]
  {
    hide Wrap, Visiting;
    var n := |keys|;
    var s, next := Visiting(keys, cursor), Wrap(Wrap(cursor + k, n) + 1, n);
    var t := Visiting(keys, next);
    WrapThenAdd(cursor + k, 1, n);
    forall j | 0 <= j < n ensures t[j] == (s[k + 1..] + s[..k + 1])[j] {
      VisitingAt(keys, next, j);
      WrapThenAdd(cursor + k + 1, j, n);
      if k + 1 + j < n {
        VisitingAt(keys, cursor, k + 1 + j);
      } else {
        WrapsAround(cursor + k + 1 + j, n);
        VisitingAt(keys, cursor, k + 1 + j - n);
      }
    }
  }

  // ---- The selector ----------------------------------------------------------------

  /** One selection: the chosen key, if any, and the new cursor. */
  datatype Choice = Choice(key: Option<Id>, cursor: nat)

  /** The distance to the first ready key. */
  function Distance(s: seq<Candidate>): (k: nat)
    ensures k <= |s| && (forall i | 0 <= i < k :: !s[i].ready) && (k < |s| ==> s[k].ready)
  {
    if s == [] || s[0].ready then 0 else 1 + Distance(s[1..])
  }

  function Choose(keys: seq<Candidate>, cursor: nat): Choice {
    if keys == [] then Choice(None, cursor)
    else
      var s := Visiting(keys, cursor);
      var k := Distance(s);
      if k == |keys| then Choice(None, cursor)
      else Choice(Some(s[k].id), Wrap(Wrap(cursor + k, |keys|) + 1, |keys|))
  }

  class Selector {
    var nextSlot: nat

    constructor (nextSlot: nat)
      ensures this.nextSlot == nextSlot
    {
      this.nextSlot := nextSlot;
    }

    /** `select`: the first ready key from the cursor on, going round once; the cursor
        then points behind it. */
    method Select(keys: seq<Candidate>) returns (chosen: Option<Id>)
      modifies this`nextSlot
      ensures Choice(chosen, nextSlot) == Choose(keys, old(nextSlot))
    {
      if keys == [] {
        return None;
      }
      ghost var s := Visiting(keys, nextSlot);
      for offset := 0 to |keys|
        invariant nextSlot == old(nextSlot)
        invariant forall j | 0 <= j < offset :: !s[j].ready
      {
        var index := (nextSlot + offset) % |keys|;
        WrapIsRemainder(nextSlot + offset, |keys|);
        WrapIsRemainder(index + 1, |keys|);
        if keys[index].ready {
          assert s[offset] == keys[index];
          nextSlot := (index + 1) % |keys|;
          return Some(keys[index].id);
        }
      }
      chosen := None;
    }
  }

  // ---- Fairness -----------------------------------------------------------------------

  /** A choice takes the first ready key and moves it to the back of the queue. */
  lemma ChoiceRotatesReady(keys: seq<Candidate>, cursor: nat)
    requires keys != []
    ensures var queue := Ready(Visiting(keys, cursor)); var c := Choose(keys, cursor);
            if queue == [] then c == Choice(None, cursor)
            else c.key == Some(queue[0].id) && Ready(Visiting(keys, c.cursor)) == queue[1..] + [queue[0]]
  {
    hide Visiting, Ready, Wrap, Distance;
    var s := Visiting(keys, cursor);
    var k := Distance(s);
    if k == |keys| {
      NoneReady(s);
    } else {
      QueueOf(s, k);
      VisitingAfter(keys, cursor, k);
    }
  }

  lemma QueueOf(s: seq<Candidate>, k: nat)
    requires k < |s| && s[k].ready && forall i | 0 <= i < k :: !s[i].ready
    ensures Ready(s) == [s[k]] + Ready(s[k + 1..])
    ensures Ready(s[k + 1..] + s[..k + 1]) == Ready(s[k + 1..]) + [s[k]]
  {
    FirstReadyLeads(s, k);
    OnlyLastReady(s[..k + 1]);
    hide Ready;
    ReadyOfConcat(s[k + 1..], s[..k + 1]);
  }

  lemma ReadyFirst(s: seq<Candidate>)
    requires s != [] && s[0].ready
    ensures Ready(s) == [s[0]] + Ready(s[1..])
  {}

  lemma FirstReadyLeads(s: seq<Candidate>, k: nat)
    requires k < |s| && s[k].ready && forall i | 0 <= i < k :: !s[i].ready
    ensures Ready(s) == [s[k]] + Ready(s[k + 1..])
  {
    hide Ready;
    var rest := s[k..];
    assert rest[1..] == s[k + 1..];
    ReadyFirst(rest);
    assert s == s[..k] + rest;
    ReadyBehind(s[..k], rest);
  }

  lemma OnlyLastReady(s: seq<Candidate>)
    requires s != [] && s[|s| - 1].ready && forall i | 0 <= i < |s| - 1 :: !s[i].ready
    ensures Ready(s) == [s[|s| - 1]]
  {
    hide Ready;
    var n := |s| - 1;
    assert s == s[..n] + [s[n]];
    ReadyBehind(s[..n], [s[n]]);
    ReadyOfOne(s[n]);
  }

  lemma ReadyBehind(front: seq<Candidate>, rest: seq<Candidate>)
    requires forall i | 0 <= i < |front| :: !front[i].ready
    ensures Ready(front + rest) == Ready(rest)
  {
    hide Ready;
    NoneReady(front);
    ReadyOfConcat(front, rest);
    assert [] + Ready(rest) == Ready(rest);
  }

  lemma ReadyOfOne(c: Candidate)
    requires c.ready
    ensures Ready([c]) == [c]
  {}

  /** The keys that `n` consecutive selections return. */
  function Selections(keys: seq<Candidate>, cursor: nat, n: nat): (r: seq<Option<Id>>)
    ensures |r| == n
    decreases n
  {
    if n == 0 then []
    else
      var c := Choose(keys, cursor);
      [c.key] + Selections(keys, c.cursor, n - 1)
  }

  /** Up to one round, the selections are the ready keys in visiting order. */
  lemma {:induction false} SelectionsFollowQueue(keys: seq<Candidate>, cursor: nat, n: nat)
    requires keys != [] && n <= |Ready(Visiting(keys, cursor))|
    ensures forall i | 0 <= i < n :: Selections(keys, cursor, n)[i] == Some(Ready(Visiting(keys, cursor))[i].id)
    decreases n
  {
    hide Visiting, Ready, Choose;
    if n > 0 {
      ChoiceRotatesReady(keys, cursor);
      var queue := Ready(Visiting(keys, cursor));
      var c := Choose(keys, cursor);
      SelectionsFollowQueue(keys, c.cursor, n - 1);
      forall i | 0 <= i < n ensures Selections(keys, cursor, n)[i] == Some(queue[i].id) {
        if i > 0 {
          assert Selections(keys, cursor, n)[i] == Selections(keys, c.cursor, n - 1)[i - 1];
          assert (queue[1..] + [queue[0]])[i - 1] == queue[i];
        }
      }
    }
  }

  predicate DistinctIds(keys: seq<Candidate>) {
    forall i, j | 0 <= i < j < |keys| :: keys[i].id != keys[j].id
  }

  lemma {:induction false} ReadyIsCounted(s: seq<Candidate>)
    ensures multiset(Ready(s)) <= multiset(s)
    ensures forall c | c in s :: multiset(Ready(s))[c] == if c.ready then multiset(s)[c] else 0
    decreases |s|
  {
    if s != [] {
      ReadyIsCounted(s[1..]);
      assert s == [s[0]] + s[1..];
    }
  }

  lemma {:induction false} ReadyIsDistinct(s: seq<Candidate>)
    requires DistinctIds(s)
    ensures DistinctIds(Ready(s))
    decreases |s|
  {
    if s != [] {
      ReadyIsDistinct(s[1..]);
      var rest := Ready(s[1..]);
      forall j | 0 <= j < |rest| ensures rest[j].id != s[0].id {
        assert rest[j] in s[1..];
      }
    }
  }

  lemma WrapsOnce(x: nat, n: nat)
    requires x < 2 * n
    ensures Wrap(x, n) == if x < n then x else x - n
  {}

  lemma VisitingIsRotation(keys: seq<Candidate>, cursor: nat)
    requires keys != []
    ensures var c := Wrap(cursor, |keys|); Visiting(keys, cursor) == keys[c..] + keys[..c]
  {
    hide Visiting, Wrap;
    var n := |keys|;
    var c := Wrap(cursor, n);
    forall j | 0 <= j < n ensures Visiting(keys, cursor)[j] == (keys[c..] + keys[..c])[j] {
      WrapThenAdd(cursor, j, n);
      VisitingAt(keys, cursor, j);
      WrapsOnce(c + j, n);
    }
  }

  lemma RotationKeepsAll(a: seq<Candidate>, b: seq<Candidate>)
    ensures multiset(b + a) == multiset(a + b)
    ensures DistinctIds(a + b) ==> DistinctIds(b + a)
  {
    var s, t := a + b, b + a;
    if DistinctIds(s) {
      forall i, j | 0 <= i < j < |t| ensures t[i].id != t[j].id {
        var p := if i < |b| then i + |a| else i - |b|;
        var q := if j < |b| then j + |a| else j - |b|;
        assert t[i] == s[p] && t[j] == s[q] && p != q;
      }
    }
  }

  lemma VisitingKeepsAll(keys: seq<Candidate>, cursor: nat)
    requires keys != []
    ensures multiset(Visiting(keys, cursor)) == multiset(keys)
    ensures DistinctIds(keys) ==> DistinctIds(Visiting(keys, cursor))
  {
    hide Visiting, DistinctIds, Wrap;
    var c := Wrap(cursor, |keys|);
    VisitingIsRotation(keys, cursor);
    RotationKeepsAll(keys[..c], keys[c..]);
    assert keys == keys[..c] + keys[c..];
  }

  /** With m ready keys, any m consecutive selections return each of them exactly once,
      wherever the cursor stands; without one they return nothing. */
  lemma RoundIsFair(keys: seq<Candidate>, cursor: nat)
    requires keys != []
    ensures var queue := Ready(Visiting(keys, cursor)); var m := |Ready(keys)|;
            && |queue| == m && multiset(queue) == multiset(Ready(keys))
            && (forall i | 0 <= i < m :: Selections(keys, cursor, m)[i] == Some(queue[i].id))
            && (Choose(keys, cursor).key.None? <==> m == 0)
            && (DistinctIds(keys) ==> DistinctIds(queue))
  {
    var s := Visiting(keys, cursor);
    VisitingKeepsAll(keys, cursor);
    ReadyIsCounted(s);
    ReadyIsCounted(keys);
    forall c ensures multiset(Ready(s))[c] == multiset(Ready(keys))[c] {
      assert c in s <==> c in multiset(s);
      assert c in keys <==> c in multiset(keys);
      if c !in keys {
        assert multiset(Ready(s))[c] <= multiset(s)[c] == 0;
        assert multiset(Ready(keys))[c] <= multiset(keys)[c] == 0;
      }
    }
    assert multiset(Ready(s)) == multiset(Ready(keys));
    assert |Ready(s)| == |multiset(Ready(s))| == |multiset(Ready(keys))| == |Ready(keys)|;
    if DistinctIds(keys) {
      ReadyIsDistinct(s);
    }
    SelectionsFollowQueue(keys, cursor, |Ready(keys)|);
    ChoiceRotatesReady(keys, cursor);
  }

  /** This key is the first ready one from the cursor on, going round once. */
  ghost predicate FirstReadyAt(keys: seq<Candidate>, cursor: nat, offset: nat) {
    && offset < |keys| && keys[Place(cursor, offset, |keys|)].ready
    && forall j | 0 <= j < offset :: !keys[Place(cursor, j, |keys|)].ready
  }

  function Place(cursor: nat, offset: nat, n: nat): (at: nat)
    requires n > 0
    ensures at < n
  {
    (cursor + offset) % n
  }

  /** The first ready key from the cursor on is chosen, and the cursor points behind it;
      none is chosen exactly if none is ready. */
  lemma ChosenAsMeant(keys: seq<Candidate>, cursor: nat)
    ensures var c := Choose(keys, cursor);
            && (c.key.None? <==> forall k | k in keys :: !k.ready)
            && (c.key.None? ==> c.cursor == cursor)
            && (c.key.Some? ==>
                  exists offset: nat ::
                    && FirstReadyAt(keys, cursor, offset)
                    && c == Choice(Some(keys[Place(cursor, offset, |keys|)].id), Place(cursor, offset + 1, |keys|)))
  {
    hide Wrap, Visiting, Place;
    if keys != [] {
      var s := Visiting(keys, cursor);
      var k := Distance(s);
      VisitingKeepsAll(keys, cursor);
      forall c: Candidate ensures c in keys <==> c in s {
        assert c in keys <==> c in multiset(keys);
      }
      forall j | 0 <= j < |keys| ensures s[j] == keys[Place(cursor, j, |keys|)] {
        VisitingAt(keys, cursor, j);
        PlaceIsWrap(cursor, j, |keys|);
      }
      if k < |keys| {
        WrapThenAdd(cursor + k, 1, |keys|);
        PlaceIsWrap(cursor, k + 1, |keys|);
        assert FirstReadyAt(keys, cursor, k);
      }
    }
  }

  lemma PlaceIsWrap(cursor: nat, offset: nat, n: nat)
    requires n > 0
    ensures Place(cursor, offset, n) == Wrap(cursor + offset, n)
  {
    WrapIsRemainder(cursor + offset, n);
  }

  // ---- The two slots of the database -----------------------------------------------------

  /** An eligible row, as the selection query returns it in slot order. */
  datatype Row = Row(id: Id, slot: nat)

  function Eligible(one: Candidate, two: Candidate): seq<Row> {
    (if one.ready then [Row(one.id, 1)] else []) + (if two.ready then [Row(two.id, 2)] else [])
  }

  function FindSlot(rows: seq<Row>, slot: nat): Option<Row> {
    if rows == [] then None else if rows[0].slot == slot then Some(rows[0]) else FindSlot(rows[1..], slot)
  }

  /** The row in the next slot if it is there, else the first one. */
  function Pick(rows: seq<Row>, nextSlot: nat): Option<Row> {
    if FindSlot(rows, nextSlot).Some? then FindSlot(rows, nextSlot) else if rows == [] then None else Some(rows[0])
  }

  function PickSlot(rows: seq<Row>, nextSlot: nat): (Option<Id>, nat) {
    match Pick(rows, nextSlot)
    case None => (None, nextSlot)
    case Some(row) => (Some(row.id), if row.slot == 1 then 2 else 1)
  }

  lemma PickInTwo(one: Candidate, two: Candidate, nextSlot: nat)
    requires nextSlot in {1, 2}
    ensures Pick(Eligible(one, two), nextSlot) ==
              if one.ready && (nextSlot == 1 || !two.ready) then Some(Row(one.id, 1))
              else if two.ready then Some(Row(two.id, 2)) else None
  {
    var first, second := Row(one.id, 1), Row(two.id, 2);
    assert [first][1..] == [] && [second][1..] == [] && [first, second][1..] == [second];
    assert FindSlot([], nextSlot) == None;
    assert FindSlot([second], nextSlot) == if nextSlot == 2 then Some(second) else None;
    assert FindSlot([first], nextSlot) == if nextSlot == 1 then Some(first) else None;
    assert FindSlot([first, second], nextSlot) == if nextSlot == 1 then Some(first) else Some(second);
    assert [first] + [second] == [first, second] && [first] + [] == [first] && [] + [second] == [second];
  }

  /** With both slots filled, the query and its cursor flip take the same step as the
      selector does. */
  lemma SlotsSimulateSelector(one: Candidate, two: Candidate, nextSlot: nat)
    requires nextSlot in {1, 2}
    ensures var (id, slot) := PickSlot(Eligible(one, two), nextSlot);
            Choose([one, two], nextSlot - 1) == Choice(id, slot - 1) && slot in {1, 2}
  {
    var keys := [one, two];
    var s := Visiting(keys, nextSlot - 1);
    assert Wrap(0, 2) == 0 && Wrap(1, 2) == 1 && Wrap(2, 2) == 0;
    assert s == if nextSlot == 1 then [one, two] else [two, one];
    assert s[1..][1..] == [] && Distance(s) == if s[0].ready then 0 else if s[1].ready then 1 else 2;
    PickInTwo(one, two, nextSlot);
  }
}
