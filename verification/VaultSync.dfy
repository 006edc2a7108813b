/** The database copy of the vault, and the field-by-field delta that keeps it up to
    date: changed fields are compared and set, counters are added. */
module VaultSync {
  import opened Common
  import opened Vault

  /** `upstream_keys` also assigns each key a routing slot. */
  datatype KeyRow = KeyRow(key: Key, slot: nat)

  /** The rows; `cursors` holds `next_slot` of each profile. */
  datatype Db = Db(keys: map<Id, KeyRow>, clients: map<Id, Client>, cursors: map<Profile, nat>)

  // ---- One key -----------------------------------------------------------------------

  /** Compare and set: nothing to do where the caller changed nothing. */
  function Cas<T(==)>(row: T, was: T, now: T): Option<T> {
    if now == was then Some(row) else if row == was then Some(now) else None
  }

  /** `GREATEST(0, count + delta)` in a 64-bit column. */
  function AddTo(row: U64, was: U64, now: U64): Option<U64> {
    if now == was then Some(row)
    else if now > I64_MAX || was > I64_MAX then None
    else
      var sum := Max(0, row + (now - was));
      if sum > I64_MAX then None else Some(sum)
  }

  predicate SameKey(a: Key, b: Key) {
    && a.enabled == b.enabled && a.verified == b.verified && a.retired == b.retired
    && a.cooldown == b.cooldown && a.requests == b.requests && a.failures == b.failures
  }

  /** The updates of one known key, in the order of the statements. */
  function UpdateKey(row: Key, was: Key, now: Key): Option<Key> {
    var enabled := Cas(row.enabled, was.enabled, now.enabled);
    var verified := Cas(row.verified, was.verified, now.verified);
    var retired := Cas(row.retired, was.retired, now.retired);
    var cooldown := Cas(row.cooldown, was.cooldown, now.cooldown);
    var requests := AddTo(row.requests, was.requests, now.requests);
    var failures := AddTo(row.failures, was.failures, now.failures);
    if enabled.None? || verified.None? || retired.None? || cooldown.None? || requests.None? || failures.None? then None
    else Some(row.(enabled := enabled.value, verified := verified.value, retired := retired.value,
                   cooldown := cooldown.value, requests := requests.value, failures := failures.value))
  }

  function InService(db: Db): set<Id> {
    set id | id in db.keys && !db.keys[id].key.retired
  }

  function SlotsTaken(db: Db): set<nat> {
    set id | id in InService(db) :: db.keys[id].slot
  }

  /** `MIN(slot)` of the free ones. */
  function FreeSlot(db: Db): Option<nat> {
    if 1 !in SlotsTaken(db) then Some(1) else if 2 !in SlotsTaken(db) then Some(2) else None
  }

  /** The unique indexes over keys in service. */
  predicate KeyIndexesAllow(db: Db, key: Key) {
    !key.retired ==>
      forall id | id in InService(db) ::
        db.keys[id].key.fingerprint != key.fingerprint && db.keys[id].key.name != key.name
  }

  function InsertKey(db: Db, key: Key): Option<Db> {
    if |InService(db)| >= MAX_UPSTREAM_KEYS || FreeSlot(db).None? || key.id in db.keys then None
    else if key.requests > I64_MAX || key.failures > I64_MAX || !KeyIndexesAllow(db, key) then None
    else Some(db.(keys := db.keys[key.id := KeyRow(key, FreeSlot(db).value)]))
  }

  function Lookup(keys: seq<Key>, id: Id): Option<Key> {
    var i := FindKey(keys, id);
    if i.None? then None else Some(keys[i.value])
  }

  function SyncKey(db: Db, previous: seq<Key>, key: Key): Option<Db> {
    var was := Lookup(previous, key.id);
    if was.None? then InsertKey(db, key)
    else if SameKey(was.value, key) then Some(db)
    else if key.id !in db.keys then None
    else
      var row := UpdateKey(db.keys[key.id].key, was.value, key);
      if row.None? then None else Some(db.(keys := db.keys[key.id := db.keys[key.id].(key := row.value)]))
  }

  // ---- One client --------------------------------------------------------------------

  predicate SameClient(a: Client, b: Client) {
    && a.active == b.active && a.digest == b.digest && a.scopes == b.scopes && a.revoked == b.revoked
    && a.requests == b.requests && a.lastUsed == b.lastUsed
  }

  /** `GREATEST(COALESCE(last_used_at, $2), $2)`. */
  function Latest(row: Option<Time>, was: Option<Time>, now: Option<Time>): Option<Time> {
    if now == was || now.None? then row
    else if row.None? then now
    else Some(Max(row.value, now.value))
  }

  function UpdateClient(row: Client, was: Client, now: Client): Option<Client> {
    var active := Cas(row.active, was.active, now.active);
    var digest := Cas(row.digest, was.digest, now.digest);
    var scopes := Cas(row.scopes, was.scopes, now.scopes);
    var revoked := Cas(row.revoked, was.revoked, now.revoked);
    var requests := AddTo(row.requests, was.requests, now.requests);
    if active.None? || digest.None? || scopes.None? || revoked.None? || requests.None? then None
    else Some(row.(active := active.value, digest := digest.value, scopes := scopes.value, revoked := revoked.value,
                   requests := requests.value, lastUsed := Latest(row.lastUsed, was.lastUsed, now.lastUsed)))
  }

  /** The unique digest, and the unique name among active clients. */
  predicate ClientIndexesAllow(db: Db, client: Client) {
    forall id | id in db.clients && id != client.id ::
      && db.clients[id].digest != client.digest
      && (db.clients[id].active && client.active ==> db.clients[id].name != client.name)
  }

  function LookupClient(clients: seq<Client>, id: Id): Option<Client> {
    var i := FindClient(clients, id, false);
    if i.None? then None else Some(clients[i.value])
  }

  function SyncClient(db: Db, previous: seq<Client>, client: Client): Option<Db> {
    var was := LookupClient(previous, client.id);
    if was.None? then
      if client.id in db.clients || client.requests > I64_MAX || !ClientIndexesAllow(db, client) then None
      else Some(db.(clients := db.clients[client.id := client]))
    else if SameClient(was.value, client) then Some(db)
    else if client.id !in db.clients then None
    else
      var row := UpdateClient(db.clients[client.id], was.value, client);
      if row.None? || !ClientIndexesAllow(db, row.value) then None
      else Some(db.(clients := db.clients[client.id := row.value]))
  }

  // ---- Cursors --------------------------------------------------------------------------

  function CursorOf(s: State, profile: Profile): nat {
    if profile in s.cursors then s.cursors[profile] else 0
  }

  function SyncCursor(db: Db, previous: State, current: State, profile: Profile): Option<Db> {
    if (CursorOf(previous, profile) - CursorOf(current, profile)) % 2 == 0 then Some(db)
    else if profile !in db.cursors then None
    else Some(db.(cursors := db.cursors[profile := if db.cursors[profile] == 1 then 2 else 1]))
  }

  // ---- The whole delta ------------------------------------------------------------------

  function SyncKeys(db: Db, previous: seq<Key>, current: seq<Key>, n: nat): Option<Db>
    requires n <= |current|
  {
    if n == 0 then Some(db)
    else
      var before := SyncKeys(db, previous, current, n - 1);
      if before.None? then None else SyncKey(before.value, previous, current[n - 1])
  }

  function SyncClients(db: Db, previous: seq<Client>, current: seq<Client>, n: nat): Option<Db>
    requires n <= |current|
  {
    if n == 0 then Some(db)
    else
      var before := SyncClients(db, previous, current, n - 1);
      if before.None? then None else SyncClient(before.value, previous, current[n - 1])
  }

  function SyncCursors(db: Db, previous: State, current: State, n: nat): Option<Db> {
    if n == 0 then Some(db)
    else
      var before := SyncCursors(db, previous, current, n - 1);
      if before.None? then None else SyncCursor(before.value, previous, current, n - 1)
  }

  /** `sync_database_delta`: the rows its transaction would commit, or `None` where it
      aborts. */
  function Delta(db: Db, previous: State, current: State): Option<Db> {
    var a := SyncKeys(db, previous.keys, current.keys, |current.keys|);
    if a.None? then None
    else
      var b := SyncClients(a.value, previous.clients, current.clients, |current.clients|);
      if b.None? then None else SyncCursors(b.value, previous, current, PROFILES)
  }

  // ---- The copy ---------------------------------------------------------------------------

  function Ids(keys: seq<Key>): set<Id> {
    set k | k in keys :: k.id
  }

  predicate KeysMirror(db: Db, keys: seq<Key>) {
    && db.keys.Keys == Ids(keys)
    && forall i | 0 <= i < |keys| :: keys[i].id in db.keys && db.keys[keys[i].id].key == keys[i]
  }

  /** Keys in service hold distinct slots, and there are only two slots. */
  predicate SlotsDistinct(db: Db) {
    && (forall id | id in InService(db) :: db.keys[id].slot in {1, 2})
    && (forall a, b | a in InService(db) && b in InService(db) && a != b :: db.keys[a].slot != db.keys[b].slot)
  }

  function ClientIds(clients: seq<Client>): set<Id> {
    set c | c in clients :: c.id
  }

  predicate ClientsMirror(db: Db, clients: seq<Client>) {
    && db.clients.Keys == ClientIds(clients)
    && forall i | 0 <= i < |clients| :: clients[i].id in db.clients && db.clients[clients[i].id] == clients[i]
  }

  predicate CursorMirrors(db: Db, s: State, profile: Profile) {
    profile in db.cursors && db.cursors[profile] == CursorOf(s, profile) % 2 + 1
  }

  /** The database holds exactly the vault. */
  predicate Mirrors(db: Db, s: State) {
    && KeysMirror(db, s.keys) && SlotsDistinct(db) && ClientsMirror(db, s.clients)
    && forall p | 0 <= p < PROFILES :: CursorMirrors(db, s, p)
  }

  /** Counters that fit a 64-bit signed column. */
  predicate CountsFit(s: State) {
    && (forall k | k in s.keys :: k.requests <= I64_MAX && k.failures <= I64_MAX)
    && (forall c | c in s.clients :: c.requests <= I64_MAX)
  }

  lemma LookupFinds(keys: seq<Key>, i: nat)
    requires i < |keys| && DistinctKeys(keys)
    ensures Lookup(keys, keys[i].id) == Some(keys[i])
  {}

  lemma LookupMisses(keys: seq<Key>, id: Id)
    requires id !in Ids(keys)
    ensures Lookup(keys, id).None?
  {
    assert forall i | 0 <= i < |keys| :: keys[i] in keys;
  }

  lemma UpdateKeyMirrors(was: Key, now: Key)
    requires KeySucceeds(was, now)
    requires was.requests <= I64_MAX && was.failures <= I64_MAX && now.requests <= I64_MAX && now.failures <= I64_MAX
    ensures UpdateKey(was, was, now) == Some(now)
    ensures SameKey(was, now) ==> was == now
  {}

  lemma IdsAt(keys: seq<Key>, i: nat, k: Key)
    requires i < |keys| && k.id == keys[i].id
    ensures Ids(keys[i := k]) == Ids(keys)
  {
    var after := keys[i := k];
    forall id | id in Ids(keys) ensures id in Ids(after) {
      var x :| x in keys && x.id == id;
      var j :| 0 <= j < |keys| && keys[j] == x;
      assert after[j].id == id && after[j] in after;
    }
    forall id | id in Ids(after) ensures id in Ids(keys) {
      var x :| x in after && x.id == id;
      var j :| 0 <= j < |after| && after[j] == x;
      assert keys[j].id == id && keys[j] in keys;
    }
  }

  function Rewrite(db: Db, now: Key): Db
    requires now.id in db.keys
  {
    db.(keys := db.keys[now.id := db.keys[now.id].(key := now)])
  }

  lemma RewriteMirrors(db: Db, mixed: seq<Key>, i: nat, now: Key)
    requires i < |mixed| && now.id == mixed[i].id && now.id in db.keys && KeysMirror(db, mixed)
    requires forall j | 0 <= j < |mixed| && j != i :: mixed[j].id != now.id
    ensures KeysMirror(Rewrite(db, now), mixed[i := now])
  {
    IdsAt(mixed, i, now);
    var after, list := Rewrite(db, now), mixed[i := now];
    assert after.keys.Keys == db.keys.Keys;
    forall j | 0 <= j < |list| ensures list[j].id in after.keys && after.keys[list[j].id].key == list[j] {
      assert list[j] == if j == i then now else mixed[j];
    }
  }

  lemma RewriteKeepsSlots(db: Db, now: Key)
    requires now.id in db.keys && SlotsDistinct(db) && (db.keys[now.id].key.retired ==> now.retired)
    ensures SlotsDistinct(Rewrite(db, now))
  {
    var after := Rewrite(db, now);
    assert forall id | id in InService(after) :: id in InService(db) && after.keys[id].slot == db.keys[id].slot;
  }

  /** Updating a key the caller knew turns its row into the new one. */
  lemma KnownKeySyncs(db: Db, previous: seq<Key>, mixed: seq<Key>, i: nat, now: Key)
    requires i < |previous| == |mixed| && DistinctKeys(previous) && mixed[i] == previous[i]
    requires forall j | 0 <= j < |mixed| :: mixed[j].id == previous[j].id
    requires KeySucceeds(previous[i], now) && KeysMirror(db, mixed) && SlotsDistinct(db)
    requires previous[i].requests <= I64_MAX && previous[i].failures <= I64_MAX
    requires now.requests <= I64_MAX && now.failures <= I64_MAX
    ensures SyncKey(db, previous, now).Some?
    ensures var after := SyncKey(db, previous, now).value;
            && KeysMirror(after, mixed[i := now]) && SlotsDistinct(after)
            && after.clients == db.clients && after.cursors == db.cursors
  {
    LookupFinds(previous, i);
    UpdateKeyMirrors(previous[i], now);
    assert db.keys[now.id].key == mixed[i];
    forall j | 0 <= j < |mixed| && j != i ensures mixed[j].id != now.id {
      assert previous[j].id != previous[i].id;
    }
    RewriteMirrors(db, mixed, i, now);
    RewriteKeepsSlots(db, now);
    hide KeysMirror, SlotsDistinct, UpdateKey, Lookup, DistinctKeys;
    if SameKey(previous[i], now) {
      assert mixed[i := now] == mixed;
    }
  }

  lemma {:induction false} InServiceIsCounted(db: Db, keys: seq<Key>)
    requires KeysMirror(db, keys) && DistinctKeys(keys)
    ensures |InService(db)| == CountActive(keys)
  {
    ActiveIdsAreCounted(keys);
    assert InService(db) == ActiveIds(keys) by {
      forall id ensures id in InService(db) <==> id in ActiveIds(keys) {
        if id in InService(db) {
          var k :| k in keys && k.id == id;
          assert db.keys[id].key == k;
        }
        if id in ActiveIds(keys) {
          var k :| k in keys && k.id == id && !k.retired;
          assert db.keys[id].key == k;
        }
      }
    }
  }

  function ActiveIds(keys: seq<Key>): set<Id> {
    set k | k in keys && !k.retired :: k.id
  }

  lemma ActiveIdsOfOneMore(front: seq<Key>, last: Key)
    requires DistinctKeys(front + [last])
    ensures DistinctKeys(front) && last.id !in ActiveIds(front)
    ensures ActiveIds(front + [last]) == if last.retired then ActiveIds(front) else ActiveIds(front) + {last.id}
  {
    var keys := front + [last];
    assert forall k :: k in keys <==> k in front || k == last;
    assert forall i | 0 <= i < |front| :: front[i] == keys[i];
    assert keys[|front|] == last;
  }

  lemma {:induction false} ActiveIdsAreCounted(keys: seq<Key>)
    requires DistinctKeys(keys)
    ensures |ActiveIds(keys)| == CountActive(keys)
    decreases |keys|
  {
    if keys != [] {
      var front, last := keys[..|keys| - 1], keys[|keys| - 1];
      assert keys == front + [last];
      ActiveIdsOfOneMore(front, last);
      hide ActiveIds, DistinctKeys;
      ActiveIdsAreCounted(front);
    }
  }

  /** One key in service leaves a slot free. */
  lemma ASlotIsFree(db: Db)
    requires SlotsDistinct(db) && |InService(db)| < 2
    ensures FreeSlot(db).Some? && FreeSlot(db).value in {1, 2} && FreeSlot(db).value !in SlotsTaken(db)
  {
    if 1 in SlotsTaken(db) && 2 in SlotsTaken(db) {
      var a :| a in InService(db) && db.keys[a].slot == 1;
      var b :| b in InService(db) && db.keys[b].slot == 2;
      assert |{a, b}| == 2;
      SubsetCount({a, b}, InService(db));
    }
  }

  lemma {:induction false} SubsetCount<T>(a: set<T>, b: set<T>)
    requires a <= b
    ensures |a| <= |b|
    decreases a
  {
    if a != {} {
      var x :| x in a;
      SubsetCount(a - {x}, b - {x});
    }
  }

  /** The new key is inserted after the replaced one was retired: a slot is free and
      no index objects. */
  lemma NewKeySyncs(db: Db, previous: seq<Key>, known: seq<Key>, now: Key)
    requires KeysMirror(db, known) && SlotsDistinct(db) && DistinctKeys(known + [now]) && !now.retired
    requires CountActive(known + [now]) <= MAX_UPSTREAM_KEYS
    requires Ids(previous) == Ids(known)
    requires now.requests <= I64_MAX && now.failures <= I64_MAX
    ensures SyncKey(db, previous, now).Some?
    ensures var after := SyncKey(db, previous, now).value;
            && KeysMirror(after, known + [now]) && SlotsDistinct(after)
            && after.clients == db.clients && after.cursors == db.cursors
  {
    var all := known + [now];
    assert DistinctKeys(known) by {
      forall i, j | 0 <= i < j < |known|
        ensures known[i].id != known[j].id && known[i].fingerprint != known[j].fingerprint
                && (!known[i].retired && !known[j].retired ==> known[i].name != known[j].name)
      {
        assert all[i] == known[i] && all[j] == known[j];
      }
    }
    forall i | 0 <= i < |known| ensures known[i].id != now.id && known[i].fingerprint != now.fingerprint
                                        && (!known[i].retired ==> known[i].name != now.name)
    {
      assert all[i] == known[i] && all[|known|] == now;
    }
    assert now.id !in Ids(known);
    LookupMisses(previous, now.id);
    InServiceIsCounted(db, known);
    CountActiveAppend(known, now);
    ASlotIsFree(db);
    NewKeyIsInserted(db, known, now);
  }

  function Inserted(db: Db, now: Key, slot: nat): Db {
    db.(keys := db.keys[now.id := KeyRow(now, slot)])
  }

  lemma InsertedMirrors(db: Db, known: seq<Key>, now: Key, slot: nat)
    requires KeysMirror(db, known) && now.id !in Ids(known)
    ensures KeysMirror(Inserted(db, now, slot), known + [now])
  {
    var all := known + [now];
    assert forall k :: k in all <==> k in known || k == now;
    assert Ids(all) == Ids(known) + {now.id};
    forall j | 0 <= j < |all|
      ensures all[j].id in Inserted(db, now, slot).keys && Inserted(db, now, slot).keys[all[j].id].key == all[j]
    {
      if j < |known| {
        assert all[j] == known[j] && known[j] in known;
      }
    }
  }

  lemma InsertedKeepsSlots(db: Db, now: Key, slot: nat)
    requires SlotsDistinct(db) && now.id !in db.keys && slot in {1, 2} && slot !in SlotsTaken(db)
    ensures SlotsDistinct(Inserted(db, now, slot))
  {
    var after := Inserted(db, now, slot);
    forall id | id in InService(after) && id != now.id
      ensures id in InService(db) && after.keys[id].slot == db.keys[id].slot != slot
    {
      assert db.keys[id].slot in SlotsTaken(db);
    }
  }

  lemma NewKeyIsInserted(db: Db, known: seq<Key>, now: Key)
    requires KeysMirror(db, known) && SlotsDistinct(db) && !now.retired && now.id !in Ids(known)
    requires |InService(db)| < 2 && FreeSlot(db).Some? && FreeSlot(db).value in {1, 2}
             && FreeSlot(db).value !in SlotsTaken(db)
    requires forall i | 0 <= i < |known| ::
               known[i].fingerprint != now.fingerprint && (!known[i].retired ==> known[i].name != now.name)
    requires now.requests <= I64_MAX && now.failures <= I64_MAX
    ensures InsertKey(db, now).Some?
    ensures var after := InsertKey(db, now).value;
            && KeysMirror(after, known + [now]) && SlotsDistinct(after)
            && after.clients == db.clients && after.cursors == db.cursors
  {
    assert KeyIndexesAllow(db, now) by {
      forall id | id in InService(db)
        ensures db.keys[id].key.fingerprint != now.fingerprint && db.keys[id].key.name != now.name
      {
        var k :| k in known && k.id == id;
        assert db.keys[id].key == k;
      }
    }
    InsertedMirrors(db, known, now, FreeSlot(db).value);
    InsertedKeepsSlots(db, now, FreeSlot(db).value);
    assert now.id !in db.keys;
    hide KeysMirror, SlotsDistinct, SlotsTaken, KeyIndexesAllow, FreeSlot;
  }

  /** How far the loop over the keys has come: the first `n` are new. */
  function Mixed(previous: seq<Key>, current: seq<Key>, n: nat): seq<Key>
    requires |previous| <= |current| && n <= |current|
  {
    if n <= |previous| then current[..n] + previous[n..] else current[..n]
  }

  /** What an operation may do to the keys: rewrite some, append at most one. */
  predicate KeysStep(previous: seq<Key>, current: seq<Key>) {
    && |previous| <= |current| <= |previous| + 1
    && (forall i | 0 <= i < |previous| :: KeySucceeds(previous[i], current[i]))
    && DistinctKeys(previous) && DistinctKeys(current) && CountActive(current) <= MAX_UPSTREAM_KEYS
    && (|current| > |previous| ==> !current[|previous|].retired)
    && (forall i | 0 <= i < |previous| :: previous[i].requests <= I64_MAX && previous[i].failures <= I64_MAX)
    && (forall i | 0 <= i < |current| :: current[i].requests <= I64_MAX && current[i].failures <= I64_MAX)
  }

  lemma SameIds(a: seq<Key>, b: seq<Key>)
    requires |a| == |b| && forall i | 0 <= i < |a| :: a[i].id == b[i].id
    ensures Ids(a) == Ids(b)
  {
    forall id | id in Ids(a) ensures id in Ids(b) {
      var i :| 0 <= i < |a| && a[i].id == id;
      assert b[i] in b;
    }
    forall id | id in Ids(b) ensures id in Ids(a) {
      var i :| 0 <= i < |b| && b[i].id == id;
      assert a[i] in a;
    }
  }

  lemma MixedKeepsIds(previous: seq<Key>, current: seq<Key>, n: nat)
    requires KeysStep(previous, current) && n <= |previous|
    ensures forall j | 0 <= j < |previous| :: Mixed(previous, current, n)[j].id == previous[j].id
  {
    forall j | 0 <= j < |previous| ensures Mixed(previous, current, n)[j].id == previous[j].id {
      assert KeySucceeds(previous[j], current[j]);
    }
  }

  lemma {:induction false} SyncKeysMirrors(db: Db, previous: seq<Key>, current: seq<Key>, n: nat)
    requires KeysStep(previous, current) && |previous| <= |current|
    requires KeysMirror(db, previous) && SlotsDistinct(db) && n <= |current|
    ensures SyncKeys(db, previous, current, n).Some?
    ensures var after := SyncKeys(db, previous, current, n).value;
            && KeysMirror(after, Mixed(previous, current, n)) && SlotsDistinct(after)
            && after.clients == db.clients && after.cursors == db.cursors
  {
    hide KeysMirror, SlotsDistinct, SyncKey, KeysStep, Mixed;
    if n == 0 {
      MixedAtStart(previous, current);
    } else {
      SyncKeysMirrors(db, previous, current, n - 1);
      KeyStepMirrors(SyncKeys(db, previous, current, n - 1).value, previous, current, n);
    }
  }

  lemma MixedAtStart(previous: seq<Key>, current: seq<Key>)
    requires KeysStep(previous, current)
    ensures |previous| <= |current| && Mixed(previous, current, 0) == previous
  {}

  lemma KeyStepMirrors(db: Db, previous: seq<Key>, current: seq<Key>, n: nat)
    requires KeysStep(previous, current) && 0 < n <= |current|
    requires KeysMirror(db, Mixed(previous, current, n - 1)) && SlotsDistinct(db)
    ensures SyncKey(db, previous, current[n - 1]).Some?
    ensures var after := SyncKey(db, previous, current[n - 1]).value;
            && KeysMirror(after, Mixed(previous, current, n)) && SlotsDistinct(after)
            && after.clients == db.clients && after.cursors == db.cursors
  {
    hide KeysMirror, SlotsDistinct, SyncKey, DistinctKeys, KeySucceeds, CountActive;
    var mixed := Mixed(previous, current, n - 1);
    MixedKeepsIds(previous, current, n - 1);
    if n <= |previous| {
      assert Mixed(previous, current, n) == mixed[n - 1 := current[n - 1]];
      KnownKeySyncs(db, previous, mixed, n - 1, current[n - 1]);
    } else {
      assert mixed == current[..|previous|] && mixed + [current[n - 1]] == current == Mixed(previous, current, n);
      SameIds(previous, mixed);
      NewKeySyncs(db, previous, mixed, current[n - 1]);
    }
  }

  // ---- Clients --------------------------------------------------------------------------

  lemma LookupClientFinds(clients: seq<Client>, i: nat)
    requires i < |clients| && DistinctClients(clients)
    ensures LookupClient(clients, clients[i].id) == Some(clients[i])
  {}

  lemma {:induction false} UnchangedClientsSync(db: Db, previous: seq<Client>, current: seq<Client>, n: nat)
    requires DistinctClients(previous) && n <= |current| && n <= |previous|
    requires forall i | 0 <= i < n :: current[i] == previous[i]
    ensures SyncClients(db, previous, current, n) == Some(db)
  {
    if n > 0 {
      UnchangedClientsSync(db, previous, current, n - 1);
      LookupClientFinds(previous, n - 1);
    }
  }

  predicate ClientStep(was: Client, now: Client) {
    && ClientSucceeds(was, now) && was.requests <= I64_MAX && now.requests <= I64_MAX
    && (now.lastUsed != was.lastUsed ==>
          now.lastUsed.Some? && (was.lastUsed.Some? ==> was.lastUsed.value <= now.lastUsed.value))
  }

  lemma UpdateClientMirrors(was: Client, now: Client)
    requires ClientStep(was, now)
    ensures UpdateClient(was, was, now) == Some(now)
    ensures SameClient(was, now) ==> was == now
  {}

  lemma ClientIdsAt(clients: seq<Client>, i: nat, c: Client)
    requires i < |clients| && c.id == clients[i].id
    ensures ClientIds(clients[i := c]) == ClientIds(clients)
  {
    var after := clients[i := c];
    forall id | id in ClientIds(clients) ensures id in ClientIds(after) {
      var j :| 0 <= j < |clients| && clients[j].id == id;
      assert after[j].id == id && after[j] in after;
    }
    forall id | id in ClientIds(after) ensures id in ClientIds(clients) {
      var j :| 0 <= j < |after| && after[j].id == id;
      assert clients[j].id == id && clients[j] in clients;
    }
  }

  lemma IndexesAllowDistinct(db: Db, previous: seq<Client>, current: seq<Client>, i: nat)
    requires ClientsMirror(db, previous) && DistinctClients(current) && i < |current| && |previous| <= |current|
    requires forall j | 0 <= j < |previous| && j != i :: current[j] == previous[j]
    requires i < |previous| ==> current[i].id == previous[i].id
    ensures ClientIndexesAllow(db, current[i])
  {
    forall id | id in db.clients && id != current[i].id
      ensures db.clients[id].digest != current[i].digest
              && (db.clients[id].active && current[i].active ==> db.clients[id].name != current[i].name)
    {
      var c :| c in previous && c.id == id;
      var j :| 0 <= j < |previous| && previous[j] == c;
      assert current[j] == c && j != i;
    }
  }

  /** One client was rewritten in place. */
  lemma EditedClientSyncs(db: Db, previous: seq<Client>, i: nat, now: Client)
    requires i < |previous| && ClientsMirror(db, previous) && ClientStep(previous[i], now)
    requires DistinctClients(previous) && DistinctClients(previous[i := now])
    ensures SyncClient(db, previous, now).Some?
    ensures var after := SyncClient(db, previous, now).value;
            && ClientsMirror(after, previous[i := now]) && after.keys == db.keys && after.cursors == db.cursors
  {
    LookupClientFinds(previous, i);
    UpdateClientMirrors(previous[i], now);
    IndexesAllowDistinct(db, previous, previous[i := now], i);
    ClientIdsAt(previous, i, now);
    var after := SyncClient(db, previous, now).value;
    var list := previous[i := now];
    assert after.clients.Keys == db.clients.Keys;
    forall j | 0 <= j < |list| ensures list[j].id in after.clients && after.clients[list[j].id] == list[j] {
      assert j != i ==> previous[j].id != previous[i].id;
    }
  }

  lemma IssuedClientSyncs(db: Db, previous: seq<Client>, now: Client)
    requires ClientsMirror(db, previous) && DistinctClients(previous + [now]) && now.requests <= I64_MAX
    ensures SyncClient(db, previous, now).Some?
    ensures var after := SyncClient(db, previous, now).value;
            && ClientsMirror(after, previous + [now]) && after.keys == db.keys && after.cursors == db.cursors
  {
    var list := previous + [now];
    forall i | 0 <= i < |previous| ensures previous[i].id != now.id {
      assert list[i] == previous[i] && list[|previous|] == now;
    }
    assert now.id !in ClientIds(previous);
    assert LookupClient(previous, now.id).None?;
    IndexesAllowDistinct(db, previous, list, |previous|);
    assert forall c :: c in list <==> c in previous || c == now;
    assert ClientIds(list) == ClientIds(previous) + {now.id};
    var after := SyncClient(db, previous, now).value;
    forall j | 0 <= j < |list| ensures list[j].id in after.clients && after.clients[list[j].id] == list[j] {
      if j < |previous| {
        assert list[j] == previous[j] && previous[j] in previous;
      }
    }
  }

  /** What an operation may do to the clients: nothing, rewrite one, or append one. */
  predicate ClientsStep(previous: seq<Client>, current: seq<Client>, i: nat) {
    && DistinctClients(previous) && DistinctClients(current)
    && i < |current| && |previous| <= |current|
    && (if i < |previous| then current == previous[i := current[i]] && ClientStep(previous[i], current[i])
        else i == |previous| && current == previous + [current[i]] && current[i].requests <= I64_MAX)
  }

  lemma {:induction false} ChangedClientsSync(db: Db, previous: seq<Client>, current: seq<Client>, i: nat, n: nat)
    requires ClientsStep(previous, current, i) && ClientsMirror(db, previous) && i < n <= |current|
    ensures SyncClient(db, previous, current[i]).Some?
    ensures SyncClients(db, previous, current, n) == SyncClient(db, previous, current[i])
    ensures var after := SyncClient(db, previous, current[i]).value;
            && ClientsMirror(after, current) && after.keys == db.keys && after.cursors == db.cursors
  {
    hide SyncClient, ClientsMirror, DistinctClients, ClientStep;
    if i < |previous| {
      EditedClientSyncs(db, previous, i, current[i]);
    } else {
      IssuedClientSyncs(db, previous, current[i]);
    }
    if n == i + 1 {
      UnchangedClientsSync(db, previous, current, i);
    } else {
      ChangedClientsSync(db, previous, current, i, n - 1);
      UnchangedClientSyncs(SyncClient(db, previous, current[i]).value, previous, n - 1);
    }
  }

  lemma UnchangedClientSyncs(db: Db, previous: seq<Client>, i: nat)
    requires i < |previous| && DistinctClients(previous)
    ensures SyncClient(db, previous, previous[i]) == Some(db)
  {
    LookupClientFinds(previous, i);
  }

  // ---- Cursors ----------------------------------------------------------------------------

  lemma CursorToggles(db: Db, previous: State, current: State, p: Profile)
    requires CursorMirrors(db, previous, p)
    ensures SyncCursor(db, previous, current, p).Some?
    ensures var after := SyncCursor(db, previous, current, p).value;
            && CursorMirrors(after, current, p) && after.keys == db.keys && after.clients == db.clients
            && forall q | q in db.cursors && q != p :: q in after.cursors && after.cursors[q] == db.cursors[q]
  {
    var a: int, b: int := CursorOf(previous, p), CursorOf(current, p);
    assert (a - b) % 2 == 0 <==> a % 2 == b % 2;
  }

  lemma {:induction false} SyncCursorsMirror(db: Db, previous: State, current: State, n: nat)
    requires forall p | 0 <= p < PROFILES :: CursorMirrors(db, previous, p)
    requires n <= PROFILES
    ensures SyncCursors(db, previous, current, n).Some?
    ensures var after := SyncCursors(db, previous, current, n).value;
            && after.keys == db.keys && after.clients == db.clients
            && (forall p | 0 <= p < n :: CursorMirrors(after, current, p))
            && (forall p | n <= p < PROFILES :: CursorMirrors(after, previous, p))
  {
    if n > 0 {
      SyncCursorsMirror(db, previous, current, n - 1);
      var before := SyncCursors(db, previous, current, n - 1).value;
      assert CursorMirrors(before, previous, n - 1);
      CursorToggles(before, previous, current, n - 1);
      var after := SyncCursors(db, previous, current, n).value;
      forall p | 0 <= p < n ensures CursorMirrors(after, current, p) {
        assert p < n - 1 ==> CursorMirrors(before, current, p);
      }
      forall p | n <= p < PROFILES ensures CursorMirrors(after, previous, p) {
        assert CursorMirrors(before, previous, p);
      }
    }
  }

  // ---- The delta refines the vault ------------------------------------------------------------

  /** No time that was recorded lies after the one now read. */
  predicate ClockIsMonotone(s: State, op: Op) {
    op.RecordUse? ==>
      forall c | c in s.clients :: c.id == op.id && c.lastUsed.Some? ==> c.lastUsed.value <= op.now
  }

  lemma AtMostOneKeyIsAdded(s: State, op: Op)
    requires Apply(s, op).Some?
    ensures var t := Apply(s, op).value;
            |t.keys| <= |s.keys| + 1 && (|t.keys| > |s.keys| ==> !t.keys[|s.keys|].retired)
  {
    hide KeyEdit, ClientEdit, Issued;
  }

  lemma OperationStepsKeys(s: State, op: Op)
    requires Sound(s) && DrawsFresh(s, op) && Apply(s, op).Some?
    requires CountsFit(s) && CountsFit(Apply(s, op).value)
    ensures KeysStep(s.keys, Apply(s, op).value.keys)
  {
    hide Apply, DrawsFresh, DistinctKeys, DistinctClients, CountActive, AllRoutable, KeySucceeds, ClientSucceeds;
    OperationKeepsSound(s, op);
    AtMostOneKeyIsAdded(s, op);
    var after := Apply(s, op).value;
    assert forall i | 0 <= i < |s.keys| :: s.keys[i] in s.keys;
    assert forall i | 0 <= i < |after.keys| :: after.keys[i] in after.keys;
  }

  /** Which client an operation touches. */
  function Touched(s: State, op: Op): nat {
    if op.Issue? then |s.clients|
    else if ClientEdit(s.clients, op).Some? then ClientEdit(s.clients, op).value.0 else 0
  }

  predicate OnClients(op: Op) {
    op.Issue? || op.Revoke? || op.Rotate? || op.UpdateScopes? || op.RecordUse?
  }

  lemma OperationStepsClients(s: State, op: Op)
    requires Sound(s) && DrawsFresh(s, op) && Apply(s, op).Some? && OnClients(op) && ClockIsMonotone(s, op)
    requires CountsFit(s) && CountsFit(Apply(s, op).value)
    ensures ClientsStep(s.clients, Apply(s, op).value.clients, Touched(s, op))
    ensures Apply(s, op).value.keys == s.keys && Apply(s, op).value.cursors == s.cursors
  {
    ClientsStaySound(s, op);
    var after := Apply(s, op).value;
    assert forall i | 0 <= i < |s.clients| :: s.clients[i] in s.clients;
    assert forall i | 0 <= i < |after.clients| :: after.clients[i] in after.clients;
    hide DistinctClients, DistinctKeys, CountActive, AllRoutable, ClientSucceeds, DrawsFresh, KeyEdit;
    if !op.Issue? {
      EditIsAStep(s, op);
    }
  }

  lemma EditIsAStep(s: State, op: Op)
    requires OnClients(op) && !op.Issue? && ClientEdit(s.clients, op).Some? && ClockIsMonotone(s, op)
    ensures var (i, now) := ClientEdit(s.clients, op).value; var was := s.clients[i];
            now.lastUsed != was.lastUsed ==>
              now.lastUsed.Some? && (was.lastUsed.Some? ==> was.lastUsed.value <= now.lastUsed.value)
  {}

  /** If the database holds the vault, the delta of any operation commits, and then the
      database holds the new vault. */
  lemma DeltaRefinesVault(db: Db, s: State, op: Op)
    requires Sound(s) && DrawsFresh(s, op) && Apply(s, op).Some? && ClockIsMonotone(s, op)
    requires CountsFit(s) && CountsFit(Apply(s, op).value) && Mirrors(db, s)
    ensures Delta(db, s, Apply(s, op).value).Some?
    ensures Mirrors(Delta(db, s, Apply(s, op).value).value, Apply(s, op).value)
  {
    hide Apply, DrawsFresh, CountsFit, KeysStep, ClientsStep, KeysMirror, SlotsDistinct, ClientsMirror, CursorMirrors,
         SyncKeys, SyncClients, SyncCursors, SyncClient, DistinctKeys, CountActive, AllRoutable, ClockIsMonotone;
    var t := Apply(s, op).value;
    OperationStepsKeys(s, op);
    MixedAtEnd(s.keys, t.keys);
    SyncKeysMirrors(db, s.keys, t.keys, |t.keys|);
    var a := SyncKeys(db, s.keys, t.keys, |t.keys|).value;
    ClientsCarryOver(db, a, s.clients);
    SyncOfClientsMirrors(a, s, op);
    var b := SyncClients(a, s.clients, t.clients, |t.clients|).value;
    CursorsCarryOver(db, b, s);
    SyncCursorsMirror(b, s, t, PROFILES);
    var c := SyncCursors(b, s, t, PROFILES).value;
    SlotsCarryOver(a, c);
    KeysCarryOver(a, c, t.keys);
    ClientsCarryOver(b, c, t.clients);
  }

  lemma MixedAtEnd(previous: seq<Key>, current: seq<Key>)
    requires KeysStep(previous, current)
    ensures |previous| <= |current| && Mixed(previous, current, |current|) == current
  {}

  lemma CursorsCarryOver(a: Db, b: Db, s: State)
    requires a.cursors == b.cursors && forall p | 0 <= p < PROFILES :: CursorMirrors(a, s, p)
    ensures forall p | 0 <= p < PROFILES :: CursorMirrors(b, s, p)
  {
    forall p | 0 <= p < PROFILES ensures CursorMirrors(b, s, p) {
      assert CursorMirrors(a, s, p);
    }
  }

  lemma SlotsCarryOver(a: Db, b: Db)
    requires a.keys == b.keys && SlotsDistinct(a)
    ensures SlotsDistinct(b)
  {
    assert InService(a) == InService(b);
  }

  lemma KeysCarryOver(a: Db, b: Db, keys: seq<Key>)
    requires a.keys == b.keys && KeysMirror(a, keys)
    ensures KeysMirror(b, keys)
  {}

  lemma ClientsCarryOver(a: Db, b: Db, clients: seq<Client>)
    requires a.clients == b.clients && ClientsMirror(a, clients)
    ensures ClientsMirror(b, clients)
  {}

  lemma SyncOfClientsMirrors(db: Db, s: State, op: Op)
    requires Sound(s) && DrawsFresh(s, op) && Apply(s, op).Some? && ClockIsMonotone(s, op)
    requires CountsFit(s) && CountsFit(Apply(s, op).value) && ClientsMirror(db, s.clients)
    ensures var t := Apply(s, op).value;
            var after := SyncClients(db, s.clients, t.clients, |t.clients|);
            && after.Some? && ClientsMirror(after.value, t.clients)
            && after.value.keys == db.keys && after.value.cursors == db.cursors
  {
    hide Apply, DrawsFresh, CountsFit, ClientsStep, ClientsMirror, SyncClients, SyncClient, DistinctKeys, CountActive;
    var t := Apply(s, op).value;
    if OnClients(op) {
      OperationStepsClients(s, op);
      ClientsStepIndex(s.clients, t.clients, Touched(s, op));
      ChangedClientsSync(db, s.clients, t.clients, Touched(s, op), |t.clients|);
    } else {
      OtherOperationsSpareClients(s, op);
      UnchangedClientsSync(db, s.clients, t.clients, |t.clients|);
    }
  }

  lemma ClientsStepIndex(previous: seq<Client>, current: seq<Client>, i: nat)
    requires ClientsStep(previous, current, i)
    ensures i < |current|
  {}

  lemma OtherOperationsSpareClients(s: State, op: Op)
    requires Apply(s, op).Some? && !OnClients(op)
    ensures Apply(s, op).value.clients == s.clients
  {}

  // ---- Interleaved gateways: slots, stale fields, counters -----------------------------------

  /** One gateway's local mutation, from the vault it knew to the vault it made. */
  predicate Local(previous: State, current: State) {
    && Evolves(previous, current) && DistinctKeys(previous.keys) && DistinctKeys(current.keys)
  }

  /** Statements about one key leave the rows of all others alone. */
  lemma SyncKeyLeavesOthers(db: Db, previous: seq<Key>, key: Key, id: Id)
    requires SyncKey(db, previous, key).Some? && id != key.id
    ensures var after := SyncKey(db, previous, key).value;
            (id in after.keys <==> id in db.keys) && (id in db.keys ==> after.keys[id] == db.keys[id])
  {}

  lemma {:induction false} SyncKeysLeaveOthers(db: Db, previous: seq<Key>, current: seq<Key>, n: nat, id: Id)
    requires n <= |current| && SyncKeys(db, previous, current, n).Some?
    requires forall j | 0 <= j < n :: current[j].id != id
    ensures var after := SyncKeys(db, previous, current, n).value;
            (id in after.keys <==> id in db.keys) && (id in db.keys ==> after.keys[id] == db.keys[id])
  {
    if n > 0 {
      SyncKeysLeaveOthers(db, previous, current, n - 1, id);
      SyncKeyLeavesOthers(SyncKeys(db, previous, current, n - 1).value, previous, current[n - 1], id);
    }
  }

  /** A field that the caller changed is no longer what the caller knew. */
  predicate StaleKey(row: Option<KeyRow>, was: Key, now: Key) {
    || (row.None? && !SameKey(was, now))
    || (row.Some? && now.enabled != was.enabled && row.value.key.enabled != was.enabled)
    || (row.Some? && now.verified != was.verified && row.value.key.verified != was.verified)
    || (row.Some? && now.retired != was.retired && row.value.key.retired != was.retired)
    || (row.Some? && now.cooldown != was.cooldown && row.value.key.cooldown != was.cooldown)
  }

  function RowOf(db: Db, id: Id): Option<KeyRow> {
    if id in db.keys then Some(db.keys[id]) else None
  }

  lemma SyncKeysFailsForward(db: Db, previous: seq<Key>, current: seq<Key>, i: nat, n: nat)
    requires i <= n <= |current| && SyncKeys(db, previous, current, i).None?
    ensures SyncKeys(db, previous, current, n).None?
    decreases n
  {
    if i < n {
      SyncKeysFailsForward(db, previous, current, i, n - 1);
    }
  }

  /** A stale field aborts the whole delta: nothing of it reaches the database. */
  lemma StaleFieldAborts(db: Db, previous: State, current: State, i: nat)
    requires i < |current.keys| && DistinctKeys(current.keys)
    requires Lookup(previous.keys, current.keys[i].id).Some?
    requires StaleKey(RowOf(db, current.keys[i].id), Lookup(previous.keys, current.keys[i].id).value, current.keys[i])
    ensures Delta(db, previous, current).None?
  {
    hide SyncClients, SyncCursors;
    var keys := current.keys;
    var before := SyncKeys(db, previous.keys, keys, i);
    if before.Some? {
      SyncKeysLeaveOthers(db, previous.keys, keys, i, keys[i].id);
      assert SyncKey(before.value, previous.keys, keys[i]).None?;
      SyncKeysFailsForward(db, previous.keys, keys, i + 1, |keys|);
    } else {
      SyncKeysFailsForward(db, previous.keys, keys, i, |keys|);
    }
  }

  /** The same for a client. */
  predicate StaleClient(row: Option<Client>, was: Client, now: Client) {
    || (row.None? && !SameClient(was, now))
    || (row.Some? && now.active != was.active && row.value.active != was.active)
    || (row.Some? && now.digest != was.digest && row.value.digest != was.digest)
    || (row.Some? && now.scopes != was.scopes && row.value.scopes != was.scopes)
    || (row.Some? && now.revoked != was.revoked && row.value.revoked != was.revoked)
  }

  function ClientRowOf(db: Db, id: Id): Option<Client> {
    if id in db.clients then Some(db.clients[id]) else None
  }

  lemma {:induction false} SyncClientsLeaveOthers(db: Db, previous: seq<Client>, current: seq<Client>, n: nat, id: Id)
    requires n <= |current| && SyncClients(db, previous, current, n).Some?
    requires forall j | 0 <= j < n :: current[j].id != id
    ensures ClientRowOf(SyncClients(db, previous, current, n).value, id) == ClientRowOf(db, id)
  {
    if n > 0 {
      SyncClientsLeaveOthers(db, previous, current, n - 1, id);
    }
  }

  lemma {:induction false} SyncKeysSpareClients(db: Db, previous: seq<Key>, current: seq<Key>, n: nat)
    requires n <= |current| && SyncKeys(db, previous, current, n).Some?
    ensures SyncKeys(db, previous, current, n).value.clients == db.clients
  {
    if n > 0 {
      SyncKeysSpareClients(db, previous, current, n - 1);
    }
  }

  lemma StaleClientAborts(db: Db, previous: State, current: State, i: nat)
    requires i < |current.clients| && DistinctClients(current.clients)
    requires LookupClient(previous.clients, current.clients[i].id).Some?
    requires StaleClient(ClientRowOf(db, current.clients[i].id),
                         LookupClient(previous.clients, current.clients[i].id).value, current.clients[i])
    ensures Delta(db, previous, current).None?
  {
    var keysDone := SyncKeys(db, previous.keys, current.keys, |current.keys|);
    if keysDone.Some? {
      SyncKeysSpareClients(db, previous.keys, current.keys, |current.keys|);
      ClientsRefuse(keysDone.value, previous.clients, current.clients, i);
    }
  }

  lemma ClientsRefuse(db: Db, previous: seq<Client>, current: seq<Client>, i: nat)
    requires i < |current| && DistinctClients(current) && LookupClient(previous, current[i].id).Some?
    requires StaleClient(ClientRowOf(db, current[i].id), LookupClient(previous, current[i].id).value, current[i])
    ensures SyncClients(db, previous, current, |current|).None?
  {
    var before := SyncClients(db, previous, current, i);
    if before.Some? {
      SyncClientsLeaveOthers(db, previous, current, i, current[i].id);
      StaleClientIsRefused(before.value, previous, current[i]);
      SyncClientsFailsForward(db, previous, current, i + 1, |current|);
    } else {
      SyncClientsFailsForward(db, previous, current, i, |current|);
    }
  }

  lemma StaleClientIsRefused(db: Db, previous: seq<Client>, now: Client)
    requires LookupClient(previous, now.id).Some?
    requires StaleClient(ClientRowOf(db, now.id), LookupClient(previous, now.id).value, now)
    ensures SyncClient(db, previous, now).None?
  {}

  lemma LookupBefore(previous: seq<Key>, current: seq<Key>, i: nat)
    requires i < |current| && |previous| <= |current| && DistinctKeys(current)
    requires forall j | 0 <= j < |previous| :: previous[j].id == current[j].id
    ensures Lookup(previous, current[i].id) == if i < |previous| then Some(previous[i]) else None
  {}

  /** Whatever other gateways did, keys in service keep distinct slots. */
  lemma SyncKeyKeepsSlots(db: Db, previous: seq<Key>, current: seq<Key>, i: nat)
    requires i < |current| && |previous| <= |current| && DistinctKeys(current)
    requires forall j | 0 <= j < |previous| :: KeySucceeds(previous[j], current[j])
    requires SlotsDistinct(db) && SyncKey(db, previous, current[i]).Some?
    ensures SlotsDistinct(SyncKey(db, previous, current[i]).value)
  {
    hide DistinctKeys;
    LookupBefore(previous, current, i);
    var id := current[i].id;
    var after := SyncKey(db, previous, current[i]).value;
    if i < |previous| {
      if !SameKey(previous[i], current[i]) {
        var row := UpdateKey(db.keys[id].key, previous[i], current[i]).value;
        assert db.keys[id].key.retired ==> row.retired;
        assert InService(after) <= InService(db);
      }
    } else {
      InsertedKeepsSlots(db, current[i], FreeSlot(db).value);
    }
  }

  lemma {:induction false} SyncKeysKeepSlots(db: Db, previous: seq<Key>, current: seq<Key>, n: nat)
    requires n <= |current| && |previous| <= |current| && DistinctKeys(current)
    requires forall j | 0 <= j < |previous| :: KeySucceeds(previous[j], current[j])
    requires SlotsDistinct(db) && SyncKeys(db, previous, current, n).Some?
    ensures SlotsDistinct(SyncKeys(db, previous, current, n).value)
  {
    hide SlotsDistinct, DistinctKeys, KeySucceeds, SyncKey;
    if n > 0 {
      SyncKeysKeepSlots(db, previous, current, n - 1);
      SyncKeyKeepsSlots(SyncKeys(db, previous, current, n - 1).value, previous, current, n - 1);
    }
  }

  lemma {:induction false} SyncClientsSpareKeys(db: Db, previous: seq<Client>, current: seq<Client>, n: nat)
    requires n <= |current| && SyncClients(db, previous, current, n).Some?
    ensures SyncClients(db, previous, current, n).value.keys == db.keys
  {
    if n > 0 {
      SyncClientsSpareKeys(db, previous, current, n - 1);
    }
  }

  lemma {:induction false} SyncCursorsSpareKeys(db: Db, previous: State, current: State, n: nat)
    requires SyncCursors(db, previous, current, n).Some?
    ensures SyncCursors(db, previous, current, n).value.keys == db.keys
  {
    if n > 0 {
      SyncCursorsSpareKeys(db, previous, current, n - 1);
    }
  }

  lemma DeltaSettlesKeys(db: Db, previous: State, current: State)
    requires Delta(db, previous, current).Some?
    ensures SyncKeys(db, previous.keys, current.keys, |current.keys|).Some?
    ensures Delta(db, previous, current).value.keys
            == SyncKeys(db, previous.keys, current.keys, |current.keys|).value.keys
  {
    hide SyncKeys;
    var a := SyncKeys(db, previous.keys, current.keys, |current.keys|).value;
    SyncClientsSpareKeys(a, previous.clients, current.clients, |current.clients|);
    var b := SyncClients(a, previous.clients, current.clients, |current.clients|).value;
    SyncCursorsSpareKeys(b, previous, current, PROFILES);
  }

  lemma DeltaKeepsSlots(db: Db, previous: State, current: State)
    requires Local(previous, current) && SlotsDistinct(db) && Delta(db, previous, current).Some?
    ensures SlotsDistinct(Delta(db, previous, current).value)
  {
    DeltaSettlesKeys(db, previous, current);
    SyncKeysKeepSlots(db, previous.keys, current.keys, |current.keys|);
    SlotsCarryOver(SyncKeys(db, previous.keys, current.keys, |current.keys|).value, Delta(db, previous, current).value);
  }

  function RequestsOf(keys: seq<Key>, id: Id): nat {
    var k := Lookup(keys, id);
    if k.Some? then k.value.requests else 0
  }

  /** A committed delta adds exactly what its gateway counted, to whatever is there. */
  lemma DeltaAddsRequests(db: Db, previous: State, current: State, id: Id)
    requires Local(previous, current) && id in db.keys && Delta(db, previous, current).Some?
    ensures var after := Delta(db, previous, current).value;
            && id in after.keys
            && after.keys[id].key.requests
                 == db.keys[id].key.requests + (RequestsOf(current.keys, id) - RequestsOf(previous.keys, id))
  {
    DeltaSettlesKeys(db, previous, current);
    KeysAddRequests(db, previous.keys, current.keys, id);
  }

  lemma KeysAddRequests(db: Db, previous: seq<Key>, current: seq<Key>, id: Id)
    requires |previous| <= |current| && DistinctKeys(previous) && DistinctKeys(current)
    requires forall j | 0 <= j < |previous| :: KeySucceeds(previous[j], current[j])
    requires id in db.keys && SyncKeys(db, previous, current, |current|).Some?
    ensures var after := SyncKeys(db, previous, current, |current|).value;
            && id in after.keys
            && after.keys[id].key.requests
                 == db.keys[id].key.requests + (RequestsOf(current, id) - RequestsOf(previous, id))
  {
    hide SyncKey, SyncKeys, DistinctKeys, FindKey, KeySucceeds;
    var at := FindKey(current, id);
    WhereKeyIs(previous, current, id);
    if at.None? {
      SyncKeysLeaveOthers(db, previous, current, |current|, id);
    } else {
      var i := at.value;
      SyncRestLeavesOthers(db, previous, current, i + 1, |current|, id);
      SyncKeysStep(db, previous, current, i);
      SyncKeysLeaveOthers(db, previous, current, i, id);
      SyncKeyAdds(SyncKeys(db, previous, current, i).value, previous, current, i);
    }
  }

  /** A key unknown now was unknown before; a known one stands in one place. */
  lemma WhereKeyIs(previous: seq<Key>, current: seq<Key>, id: Id)
    requires |previous| <= |current| && DistinctKeys(current)
    requires forall j | 0 <= j < |previous| :: KeySucceeds(previous[j], current[j])
    ensures var at := FindKey(current, id);
            if at.None? then FindKey(previous, id).None? && forall j | 0 <= j < |current| :: current[j].id != id
            else at.value < |current| && current[at.value].id == id
                 && forall j | 0 <= j < |current| && j != at.value :: current[j].id != id
  {
    assert forall j | 0 <= j < |previous| :: previous[j].id == current[j].id;
  }

  lemma SyncKeysStep(db: Db, previous: seq<Key>, current: seq<Key>, i: nat)
    requires i < |current| && SyncKeys(db, previous, current, i + 1).Some?
    ensures SyncKeys(db, previous, current, i).Some?
    ensures SyncKeys(db, previous, current, i + 1)
            == SyncKey(SyncKeys(db, previous, current, i).value, previous, current[i])
  {}

  lemma SyncKeyAdds(db: Db, previous: seq<Key>, current: seq<Key>, i: nat)
    requires i < |current| && |previous| <= |current| && DistinctKeys(previous) && DistinctKeys(current)
    requires forall j | 0 <= j < |previous| :: KeySucceeds(previous[j], current[j])
    requires current[i].id in db.keys && SyncKey(db, previous, current[i]).Some?
    ensures var after := SyncKey(db, previous, current[i]).value; var id := current[i].id;
            && id in after.keys
            && after.keys[id].key.requests
                 == db.keys[id].key.requests + (RequestsOf(current, id) - RequestsOf(previous, id))
  {
    LookupBefore(previous, current, i);
    LookupFinds(current, i);
    hide DistinctKeys, Lookup;
  }

  lemma {:induction false} SyncRestLeavesOthers(db: Db, previous: seq<Key>, current: seq<Key>, i: nat, n: nat, id: Id)
    requires i <= n <= |current| && SyncKeys(db, previous, current, n).Some?
    requires forall j | i <= j < n :: current[j].id != id
    ensures SyncKeys(db, previous, current, i).Some?
    ensures var a := SyncKeys(db, previous, current, i).value; var b := SyncKeys(db, previous, current, n).value;
            (id in a.keys <==> id in b.keys) && (id in a.keys ==> b.keys[id] == a.keys[id])
    decreases n
  {
    if i < n {
      SyncRestLeavesOthers(db, previous, current, i, n - 1, id);
      SyncKeyLeavesOthers(SyncKeys(db, previous, current, n - 1).value, previous, current[n - 1], id);
    }
  }

  datatype Commit = Commit(previous: State, current: State)

  /** The database after the deltas of several gateways, in the order they got the
      lock; an aborted one changes nothing. */
  function Settled(db: Db, run: seq<Commit>): Db {
    if run == [] then db
    else
      var before := Settled(db, run[..|run| - 1]);
      var c := run[|run| - 1];
      var delta := Delta(before, c.previous, c.current);
      if delta.Some? then delta.value else before
  }

  /** What the committed ones counted for this key. */
  function Gained(db: Db, run: seq<Commit>, id: Id): int {
    if run == [] then 0
    else
      var c := run[|run| - 1];
      Gained(db, run[..|run| - 1], id)
      + if Delta(Settled(db, run[..|run| - 1]), c.previous, c.current).Some?
        then RequestsOf(c.current.keys, id) - RequestsOf(c.previous.keys, id) else 0
  }

  /** Request counts of interleaved gateways sum exactly, and slots stay distinct. */
  lemma {:induction false} InterleavedDeltasAdd(db: Db, run: seq<Commit>, id: Id)
    requires id in db.keys && SlotsDistinct(db) && forall c | c in run :: Local(c.previous, c.current)
    ensures var after := Settled(db, run);
            && id in after.keys && SlotsDistinct(after)
            && after.keys[id].key.requests == db.keys[id].key.requests + Gained(db, run, id)
    decreases |run|
  {
    hide Delta, Local, SlotsDistinct, RequestsOf;
    if run != [] {
      var front := run[..|run| - 1];
      var c := run[|run| - 1];
      InterleavedDeltasAdd(db, front, id);
      var before := Settled(db, front);
      if Delta(before, c.previous, c.current).Some? {
        DeltaAddsRequests(before, c.previous, c.current, id);
        DeltaKeepsSlots(before, c.previous, c.current);
      }
    }
  }

  // ---- The same of the uses counted for clients ----------------------------------------------

  function UsesOf(clients: seq<Client>, id: Id): nat {
    var c := LookupClient(clients, id);
    if c.Some? then c.value.requests else 0
  }

  /** One gateway's local mutation, as far as its clients go. */
  predicate LocalClients(previous: seq<Client>, current: seq<Client>) {
    && |previous| <= |current| && DistinctClients(previous) && DistinctClients(current)
    && forall j | 0 <= j < |previous| :: ClientSucceeds(previous[j], current[j])
  }

  lemma {:induction false} SyncCursorsSpareClients(db: Db, previous: State, current: State, n: nat)
    requires SyncCursors(db, previous, current, n).Some?
    ensures SyncCursors(db, previous, current, n).value.clients == db.clients
  {
    if n > 0 {
      SyncCursorsSpareClients(db, previous, current, n - 1);
    }
  }

  /** The one place of a client, now and before. */
  lemma WhereClientIs(previous: seq<Client>, current: seq<Client>, id: Id)
    requires LocalClients(previous, current)
    ensures var at := FindClient(current, id, false);
            if at.None? then
              FindClient(previous, id, false).None? && forall j | 0 <= j < |current| :: current[j].id != id
            else
              && at.value < |current| && current[at.value].id == id
              && (forall j | 0 <= j < |current| && j != at.value :: current[j].id != id)
              && LookupClient(previous, id) == if at.value < |previous| then Some(previous[at.value]) else None
  {
    assert forall j | 0 <= j < |previous| :: previous[j].id == current[j].id;
  }

  lemma SyncClientAdds(db: Db, previous: seq<Client>, client: Client)
    requires client.id in db.clients && SyncClient(db, previous, client).Some?
    requires LookupClient(previous, client.id).Some? ==>
               LookupClient(previous, client.id).value.requests <= client.requests
    ensures var after := SyncClient(db, previous, client).value;
            && client.id in after.clients
            && after.clients[client.id].requests
                 == db.clients[client.id].requests + (client.requests - UsesOf(previous, client.id))
  {}

  lemma {:induction false} SyncClientsRest(db: Db, previous: seq<Client>, current: seq<Client>, i: nat, n: nat, id: Id)
    requires i <= n <= |current| && SyncClients(db, previous, current, n).Some?
    requires forall j | i <= j < n :: current[j].id != id
    ensures SyncClients(db, previous, current, i).Some?
    ensures ClientRowOf(SyncClients(db, previous, current, n).value, id)
            == ClientRowOf(SyncClients(db, previous, current, i).value, id)
    decreases n
  {
    if i < n {
      SyncClientsRest(db, previous, current, i, n - 1, id);
    }
  }

  lemma SyncClientsStep(db: Db, previous: seq<Client>, current: seq<Client>, i: nat)
    requires i < |current| && SyncClients(db, previous, current, i + 1).Some?
    ensures SyncClients(db, previous, current, i).Some?
    ensures SyncClients(db, previous, current, i + 1)
            == SyncClient(SyncClients(db, previous, current, i).value, previous, current[i])
  {}

  lemma ClientsAddUses(db: Db, previous: seq<Client>, current: seq<Client>, id: Id)
    requires LocalClients(previous, current)
    requires id in db.clients && SyncClients(db, previous, current, |current|).Some?
    ensures var after := SyncClients(db, previous, current, |current|).value;
            && id in after.clients
            && after.clients[id].requests == db.clients[id].requests + (UsesOf(current, id) - UsesOf(previous, id))
  {
    hide SyncClient, SyncClients, FindClient, DistinctClients;
    WhereClientIs(previous, current, id);
    var at := FindClient(current, id, false);
    if at.None? {
      SyncClientsLeaveOthers(db, previous, current, |current|, id);
    } else {
      var i := at.value;
      SyncClientsRest(db, previous, current, i + 1, |current|, id);
      SyncClientsStep(db, previous, current, i);
      SyncClientsLeaveOthers(db, previous, current, i, id);
      SyncClientAdds(SyncClients(db, previous, current, i).value, previous, current[i]);
    }
  }

  /** A committed delta adds exactly the uses its gateway counted for a client. */
  lemma DeltaAddsUses(db: Db, previous: State, current: State, id: Id)
    requires LocalClients(previous.clients, current.clients) && id in db.clients && Delta(db, previous, current).Some?
    ensures var after := Delta(db, previous, current).value;
            && id in after.clients
            && after.clients[id].requests
                 == db.clients[id].requests + (UsesOf(current.clients, id) - UsesOf(previous.clients, id))
  {
    hide SyncKeys, SyncClients, SyncCursors, UsesOf, LocalClients;
    var a := SyncKeys(db, previous.keys, current.keys, |current.keys|).value;
    SyncKeysSpareClients(db, previous.keys, current.keys, |current.keys|);
    ClientsAddUses(a, previous.clients, current.clients, id);
    var b := SyncClients(a, previous.clients, current.clients, |current.clients|).value;
    SyncCursorsSpareClients(b, previous, current, PROFILES);
  }

  /** What the committed ones counted for this client. */
  function Used(db: Db, run: seq<Commit>, id: Id): int {
    if run == [] then 0
    else
      var c := run[|run| - 1];
      Used(db, run[..|run| - 1], id)
      + if Delta(Settled(db, run[..|run| - 1]), c.previous, c.current).Some?
        then UsesOf(c.current.clients, id) - UsesOf(c.previous.clients, id) else 0
  }

  /** The uses counted by interleaved gateways for one client sum exactly. */
  lemma {:induction false} InterleavedUsesAdd(db: Db, run: seq<Commit>, id: Id)
    requires id in db.clients && forall c | c in run :: LocalClients(c.previous.clients, c.current.clients)
    ensures var after := Settled(db, run);
            id in after.clients && after.clients[id].requests == db.clients[id].requests + Used(db, run, id)
    decreases |run|
  {
    hide Delta, LocalClients, UsesOf;
    if run != [] {
      var front := run[..|run| - 1];
      var c := run[|run| - 1];
      InterleavedUsesAdd(db, front, id);
      var before := Settled(db, front);
      if Delta(before, c.previous, c.current).Some? {
        DeltaAddsUses(before, c.previous, c.current, id);
      }
    }
  }

  // ---- The store --------------------------------------------------------------------------------

  /** What happens to the transaction: it commits, fails, or commits unheard. */
  datatype Outcome = Committed | RolledBack | Unheard

  predicate FaithfulTo(db: Db, s: State, op: Op) {
    && Mirrors(db, s) && Sound(s) && DrawsFresh(s, op) && ClockIsMonotone(s, op)
    && CountsFit(s) && CountsFit(Next(s, op))
  }

  lemma FaithfulRefines(db: Db, s: State, op: Op)
    requires FaithfulTo(db, s, op) && Apply(s, op).Some?
    ensures Delta(db, s, Next(s, op)).Some? && Mirrors(Delta(db, s, Next(s, op)).value, Next(s, op))
  {
    hide Delta, Mirrors, Sound, DrawsFresh, ClockIsMonotone, CountsFit, Apply;
    DeltaRefinesVault(db, s, op);
  }

  class Database {
    var rows: Db

    constructor (rows: Db)
      ensures this.rows == rows
    {
      this.rows := rows;
    }
  }

  /** The loops of `sync_database_delta` over a transaction's own view of the rows. */
  method SyncDatabaseDelta(rows: Db, previous: State, current: State) returns (result: Option<Db>)
    ensures result == Delta(rows, previous, current)
  {
    hide SyncKey, SyncClient, SyncCursor;
    var view := rows;
    for n := 0 to |current.keys|
      invariant SyncKeys(rows, previous.keys, current.keys, n) == Some(view)
    {
      var key := current.keys[n];
      var next := SyncOneKey(view, previous.keys, key);
      if next.None? {
        SyncKeysFailsForward(rows, previous.keys, current.keys, n + 1, |current.keys|);
        return None;
      }
      view := next.value;
    }
    ghost var keysDone := view;
    for n := 0 to |current.clients|
      invariant SyncClients(keysDone, previous.clients, current.clients, n) == Some(view)
    {
      var next := SyncOneClient(view, previous.clients, current.clients[n]);
      if next.None? {
        SyncClientsFailsForward(keysDone, previous.clients, current.clients, n + 1, |current.clients|);
        return None;
      }
      view := next.value;
    }
    ghost var clientsDone := view;
    for profile := 0 to PROFILES
      invariant SyncCursors(clientsDone, previous, current, profile) == Some(view)
    {
      var next := SyncCursor(view, previous, current, profile);
      if next.None? {
        SyncCursorsFailsForward(clientsDone, previous, current, profile + 1, PROFILES);
        return None;
      }
      view := next.value;
    }
    return Some(view);
  }

  lemma SyncClientsFailsForward(db: Db, previous: seq<Client>, current: seq<Client>, i: nat, n: nat)
    requires i <= n <= |current| && SyncClients(db, previous, current, i).None?
    ensures SyncClients(db, previous, current, n).None?
    decreases n
  {
    if i < n {
      SyncClientsFailsForward(db, previous, current, i, n - 1);
    }
  }

  lemma SyncCursorsFailsForward(db: Db, previous: State, current: State, i: nat, n: nat)
    requires i <= n && SyncCursors(db, previous, current, i).None?
    ensures SyncCursors(db, previous, current, n).None?
    decreases n
  {
    if i < n {
      SyncCursorsFailsForward(db, previous, current, i, n - 1);
    }
  }

  /** The statements for one key, one after the other. */
  method SyncOneKey(view: Db, previous: seq<Key>, key: Key) returns (result: Option<Db>)
    ensures result == SyncKey(view, previous, key)
  {
    hide InsertKey, Lookup, UpdateKey;
    var was := Lookup(previous, key.id);
    if was.None? {
      return InsertKey(view, key);
    }
    if SameKey(was.value, key) {
      return Some(view);
    }
    if key.id !in view.keys {
      return None;
    }
    var row := UpdateRow(view.keys[key.id].key, was.value, key);
    if row.None? {
      return None;
    }
    return Some(view.(keys := view.keys[key.id := view.keys[key.id].(key := row.value)]));
  }

  /** Compare and set, field after field; then the two counters. */
  method UpdateRow(row: Key, was: Key, key: Key) returns (result: Option<Key>)
    ensures result == UpdateKey(row, was, key)
  {
    hide AddTo;
    if (key.enabled != was.enabled && row.enabled != was.enabled)
       || (key.verified != was.verified && row.verified != was.verified)
       || (key.retired != was.retired && row.retired != was.retired)
       || (key.cooldown != was.cooldown && row.cooldown != was.cooldown) {
      return None;
    }
    var requests := AddTo(row.requests, was.requests, key.requests);
    var failures := AddTo(row.failures, was.failures, key.failures);
    if requests.None? || failures.None? {
      return None;
    }
    return Some(row.(enabled := if key.enabled != was.enabled then key.enabled else row.enabled,
                     verified := if key.verified != was.verified then key.verified else row.verified,
                     retired := if key.retired != was.retired then key.retired else row.retired,
                     cooldown := if key.cooldown != was.cooldown then key.cooldown else row.cooldown,
                     requests := requests.value, failures := failures.value));
  }

  method SyncOneClient(view: Db, previous: seq<Client>, client: Client) returns (result: Option<Db>)
    ensures result == SyncClient(view, previous, client)
  {
    var was := LookupClient(previous, client.id);
    if was.None? {
      if client.id in view.clients || client.requests > I64_MAX || !ClientIndexesAllow(view, client) {
        return None;
      }
      return Some(view.(clients := view.clients[client.id := client]));
    }
    if SameClient(was.value, client) {
      return Some(view);
    }
    if client.id !in view.clients {
      return None;
    }
    var row := view.clients[client.id];
    var stale := (client.active != was.value.active && row.active != was.value.active)
                 || (client.digest != was.value.digest && row.digest != was.value.digest)
                 || (client.scopes != was.value.scopes && row.scopes != was.value.scopes)
                 || (client.revoked != was.value.revoked && row.revoked != was.value.revoked);
    if stale {
      return None;
    }
    var requests := AddTo(row.requests, was.value.requests, client.requests);
    if requests.None? {
      return None;
    }
    row := row.(active := if client.active != was.value.active then client.active else row.active,
                digest := if client.digest != was.value.digest then client.digest else row.digest,
                scopes := if client.scopes != was.value.scopes then client.scopes else row.scopes,
                revoked := if client.revoked != was.value.revoked then client.revoked else row.revoked,
                requests := requests.value,
                lastUsed := Latest(row.lastUsed, was.value.lastUsed, client.lastUsed));
    if !ClientIndexesAllow(view, row) {
      return None;
    }
    return Some(view.(clients := view.clients[client.id := row]));
  }

  /** One gateway's store: the locked vault and the shared database. */
  class VaultStore {
    const vault: Vault
    const database: Database

    constructor (vault: Vault, database: Database)
      ensures this.vault == vault && this.database == database
    {
      this.vault, this.database := vault, database;
    }

    /** The database holds the vault, and the operation draws and counts as it should. */
    predicate Faithful(op: Op)
      reads vault, database
    {
      FaithfulTo(database.rows, vault.Contents(), op)
    }

    /** `mutate`: the operation on the vault, then its delta; on any failure the vault
        is put back. Both sides move together or neither does, except that the rows move
        alone exactly when the commit took effect and was not heard. */
    method Mutate(op: Op, outcome: Outcome) returns (ok: bool)
      modifies vault, database
      ensures var s := old(vault.Contents());
              var delta := Delta(old(database.rows), s, Next(s, op));
              var accepted := Accepted(s, op, vault.disk(old(vault.writes))) && delta.Some?;
              && (ok <==> accepted && outcome.Committed?)
              && vault.Contents() == (if ok then Next(s, op) else s)
              && database.rows == (if accepted && !outcome.RolledBack? then delta.value else old(database.rows))
      ensures old(Faithful(op)) ==>
                var s := old(vault.Contents());
                Mirrors(database.rows,
                        if Accepted(s, op, vault.disk(old(vault.writes))) && !outcome.RolledBack?
                        then Next(s, op) else s)
    {
      hide Delta, Apply, Mirrors;
      if Faithful(op) && Apply(vault.Contents(), op).Some? {
        FaithfulRefines(database.rows, vault.Contents(), op);
      }
      var previous := vault.Contents();
      ok := vault.Run(op);
      if !ok {
        vault.Restore(previous);
        return;
      }
      var current := vault.Contents();
      var delta := SyncDatabaseDelta(database.rows, previous, current);
      if delta.Some? && outcome != RolledBack {
        database.rows := delta.value;
      }
      ok := delta.Some? && outcome.Committed?;
      if !ok {
        vault.Restore(previous);
        var _ := vault.Persist();
      }
    }
  }

  const FIRST_ROWS := Db(map[], map[], map p: nat | 0 <= p < PROFILES :: 1)

  const FLIP := SetCursor(0, 1)

  lemma FlipIsFaithful()
    ensures FaithfulTo(FIRST_ROWS, EMPTY, FLIP) && Accepted(EMPTY, FLIP, true)
  {}

  lemma FlipIsSeen(rows: Db)
    requires Mirrors(rows, Next(EMPTY, FLIP))
    ensures !Mirrors(rows, EMPTY)
  {
    assert CursorMirrors(rows, Next(EMPTY, FLIP), 0);
    assert !CursorMirrors(rows, EMPTY, 0);
  }

  /** A mutation whose commit went through unheard: the database has moved on, the
      vault is put back, and the one no longer holds the other. */
  method MoveOnUnheard() returns (store: VaultStore)
    ensures fresh(store) && store.vault.Contents() == EMPTY
    ensures !Mirrors(store.database.rows, EMPTY) && Mirrors(store.database.rows, Next(EMPTY, FLIP))
  {
    hide Delta, Mirrors, Accepted, FaithfulTo, Apply, Next;
    FlipIsFaithful();
    var vault := new Vault(_ => true);
    var database := new Database(FIRST_ROWS);
    store := new VaultStore(vault, database);
    assert store.Faithful(FLIP);
    var ok := store.Mutate(FLIP, Unheard);
    FlipIsSeen(database.rows);
  }
}
