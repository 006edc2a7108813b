/** What a delta does to rows that other gateways have changed meanwhile: a field its
    gateway did not change stays as it is, a changed one is set, counts are added. */
module VaultMerge {
  import opened Common
  import opened Vault
  import opened VaultSync

  /** A compared field: left alone where the gateway changed nothing, set where it did. */
  predicate Merged<T(==)>(row: T, was: T, now: T, after: T) {
    if now == was then after == row else row == was && after == now
  }

  predicate CountMerged(row: int, was: int, now: int, after: int) {
    after == Max(0, row + (now - was))
  }

  predicate KeyMerged(row: Key, was: Key, now: Key, after: Key) {
    && Merged(row.enabled, was.enabled, now.enabled, after.enabled)
    && Merged(row.verified, was.verified, now.verified, after.verified)
    && Merged(row.retired, was.retired, now.retired, after.retired)
    && Merged(row.cooldown, was.cooldown, now.cooldown, after.cooldown)
    && CountMerged(row.requests, was.requests, now.requests, after.requests)
    && CountMerged(row.failures, was.failures, now.failures, after.failures)
    && after.id == row.id && after.name == row.name && after.fingerprint == row.fingerprint
    && after.secret == row.secret
  }

  /** The last use never moves back, and is no earlier than one that was recorded now. */
  predicate UseMerged(row: Option<Time>, was: Option<Time>, now: Option<Time>, after: Option<Time>) {
    && (row.Some? ==> after.Some? && row.value <= after.value)
    && (now != was && now.Some? ==> after.Some? && now.value <= after.value)
    && (after == row || (now != was && after == now))
  }

  predicate ClientMerged(row: Client, was: Client, now: Client, after: Client) {
    && Merged(row.active, was.active, now.active, after.active)
    && Merged(row.digest, was.digest, now.digest, after.digest)
    && Merged(row.scopes, was.scopes, now.scopes, after.scopes)
    && Merged(row.revoked, was.revoked, now.revoked, after.revoked)
    && CountMerged(row.requests, was.requests, now.requests, after.requests)
    && UseMerged(row.lastUsed, was.lastUsed, now.lastUsed, after.lastUsed)
    && after.id == row.id && after.name == row.name && after.created == row.created
  }

  // ---- One delta -------------------------------------------------------------------

  lemma KnownKeyMerges(db: Db, previous: seq<Key>, key: Key)
    requires Lookup(previous, key.id).Some? && SyncKey(db, previous, key).Some?
    ensures RowOf(SyncKey(db, previous, key).value, key.id).Some? <==> RowOf(db, key.id).Some?
    ensures key.id in db.keys ==>
              var after := SyncKey(db, previous, key).value.keys[key.id];
              && KeyMerged(db.keys[key.id].key, Lookup(previous, key.id).value, key, after.key)
              && after.slot == db.keys[key.id].slot
  {
    hide Lookup;
  }

  /** Only the statements about a key touch its row. */
  lemma KeyHasOneStep(db: Db, previous: seq<Key>, current: seq<Key>, i: nat)
    requires i < |current| && DistinctKeys(current) && SyncKeys(db, previous, current, |current|).Some?
    ensures var id := current[i].id; var before := SyncKeys(db, previous, current, i);
            && before.Some? && RowOf(before.value, id) == RowOf(db, id)
            && SyncKey(before.value, previous, current[i]).Some?
            && RowOf(SyncKeys(db, previous, current, |current|).value, id)
               == RowOf(SyncKey(before.value, previous, current[i]).value, id)
  {
    hide SyncKey, SyncKeys;
    var id := current[i].id;
    forall j | 0 <= j < |current| && j != i ensures current[j].id != id {
      assert if j < i then Apart(current[j], current[i]) else Apart(current[i], current[j]);
    }
    SyncRestLeavesOthers(db, previous, current, i + 1, |current|, id);
    SyncKeysStep(db, previous, current, i);
    SyncKeysLeaveOthers(db, previous, current, i, id);
  }

  /** Whatever the rows hold, a committed delta leaves every field of a key that its
      gateway did not change, sets every one it did, and adds its counts. */
  lemma DeltaMergesKey(db: Db, previous: State, current: State, i: nat)
    requires Local(previous, current) && i < |previous.keys| && Delta(db, previous, current).Some?
    ensures var id := previous.keys[i].id; var after := Delta(db, previous, current).value;
            && (id in after.keys <==> id in db.keys)
            && (id in db.keys ==>
                  && KeyMerged(db.keys[id].key, previous.keys[i], current.keys[i], after.keys[id].key)
                  && after.keys[id].slot == db.keys[id].slot)
  {
    hide Delta, SyncKey, SyncKeys, DistinctKeys, KeyMerged, Lookup;
    SameIds(previous.keys, current.keys);
    DeltaSettlesKeys(db, previous, current);
    KeyHasOneStep(db, previous.keys, current.keys, i);
    LookupBefore(previous.keys, current.keys, i);
    KnownKeyMerges(SyncKeys(db, previous.keys, current.keys, i).value, previous.keys, current.keys[i]);
  }

  lemma SameIds(previous: seq<Key>, current: seq<Key>)
    requires |previous| <= |current| && forall j | 0 <= j < |previous| :: KeySucceeds(previous[j], current[j])
    ensures forall j | 0 <= j < |previous| :: previous[j].id == current[j].id
  {}

  /** A key its gateway added is inserted as it is, where no row had its id. */
  lemma DeltaInsertsKey(db: Db, previous: State, current: State, i: nat)
    requires Local(previous, current) && |previous.keys| <= i < |current.keys| && Delta(db, previous, current).Some?
    ensures var id := current.keys[i].id; var after := Delta(db, previous, current).value;
            id !in db.keys && id in after.keys && after.keys[id].key == current.keys[i]
  {
    hide Delta, SyncKeys, DistinctKeys, Lookup;
    SameIds(previous.keys, current.keys);
    DeltaSettlesKeys(db, previous, current);
    KeyHasOneStep(db, previous.keys, current.keys, i);
    LookupBefore(previous.keys, current.keys, i);
  }

  /** No key in service holds this slot. */
  predicate FreeFor(db: Db, slot: nat) {
    forall id | id in db.keys && !db.keys[id].key.retired :: db.keys[id].slot != slot
  }

  /** A key is inserted exactly if a slot is free, its id is new, its counts fit and no key in
      service has its name or fingerprint; it gets the lower free slot. */
  lemma InsertMeans(db: Db, key: Key)
    ensures InsertKey(db, key).Some? <==>
              && (FreeFor(db, 1) || FreeFor(db, 2)) && |InService(db)| < 2 && key.id !in db.keys
              && key.requests <= I64_MAX && key.failures <= I64_MAX
              && (!key.retired ==>
                    forall id | id in db.keys && !db.keys[id].key.retired ::
                      db.keys[id].key.fingerprint != key.fingerprint && db.keys[id].key.name != key.name)
    ensures InsertKey(db, key).Some? ==>
              InsertKey(db, key).value == db.(keys := db.keys[key.id := KeyRow(key, if FreeFor(db, 1) then 1 else 2)])
  {
    forall slot: nat ensures slot !in SlotsTaken(db) <==> FreeFor(db, slot) {
      if slot in SlotsTaken(db) {
        var id :| id in InService(db) && db.keys[id].slot == slot;
        assert !FreeFor(db, slot);
      } else {
        forall id | id in db.keys && !db.keys[id].key.retired ensures db.keys[id].slot != slot {
          assert id in InService(db);
        }
      }
    }
  }

  /** Rows its gateway knows nothing of are not touched. */
  lemma DeltaSparesKey(db: Db, previous: State, current: State, id: Id)
    requires Delta(db, previous, current).Some? && forall k | k in current.keys :: k.id != id
    ensures RowOf(Delta(db, previous, current).value, id) == RowOf(db, id)
  {
    hide Delta, SyncKeys;
    DeltaSettlesKeys(db, previous, current);
    assert forall j | 0 <= j < |current.keys| :: current.keys[j] in current.keys;
    SyncKeysLeaveOthers(db, previous.keys, current.keys, |current.keys|, id);
  }

  lemma KnownClientMerges(db: Db, previous: seq<Client>, client: Client)
    requires LookupClient(previous, client.id).Some? && SyncClient(db, previous, client).Some?
    ensures var row := ClientRowOf(db, client.id);
            var after := ClientRowOf(SyncClient(db, previous, client).value, client.id);
            && (after.Some? <==> row.Some?)
            && (row.Some? ==> ClientMerged(row.value, LookupClient(previous, client.id).value, client, after.value))
  {
    hide LookupClient, ClientIndexesAllow;
  }

  lemma ClientHasOneStep(db: Db, previous: seq<Client>, current: seq<Client>, i: nat)
    requires i < |current| && DistinctClients(current) && SyncClients(db, previous, current, |current|).Some?
    ensures var id := current[i].id; var before := SyncClients(db, previous, current, i);
            && before.Some? && ClientRowOf(before.value, id) == ClientRowOf(db, id)
            && SyncClient(before.value, previous, current[i]).Some?
            && ClientRowOf(SyncClients(db, previous, current, |current|).value, id)
               == ClientRowOf(SyncClient(before.value, previous, current[i]).value, id)
  {
    hide SyncClient, SyncClients;
    var id := current[i].id;
    SyncClientsRest(db, previous, current, i + 1, |current|, id);
    SyncClientsStep(db, previous, current, i);
    SyncClientsLeaveOthers(db, previous, current, i, id);
  }

  lemma DeltaSettlesClients(db: Db, previous: State, current: State)
    requires Delta(db, previous, current).Some?
    ensures SyncKeys(db, previous.keys, current.keys, |current.keys|).Some?
    ensures var a := SyncKeys(db, previous.keys, current.keys, |current.keys|).value;
            && a.clients == db.clients
            && SyncClients(a, previous.clients, current.clients, |current.clients|).Some?
            && Delta(db, previous, current).value.clients
               == SyncClients(a, previous.clients, current.clients, |current.clients|).value.clients
  {
    hide SyncKeys, SyncClients, SyncCursors;
    SyncKeysSpareClients(db, previous.keys, current.keys, |current.keys|);
    var a := SyncKeys(db, previous.keys, current.keys, |current.keys|).value;
    SyncCursorsSpareClients(SyncClients(a, previous.clients, current.clients, |current.clients|).value,
                            previous, current, PROFILES);
  }

  /** The same of a client. */
  lemma DeltaMergesClient(db: Db, previous: State, current: State, i: nat)
    requires LocalClients(previous.clients, current.clients) && i < |previous.clients|
    requires Delta(db, previous, current).Some?
    ensures var id := previous.clients[i].id; var after := Delta(db, previous, current).value;
            && (id in after.clients <==> id in db.clients)
            && (id in db.clients ==>
                  ClientMerged(db.clients[id], previous.clients[i], current.clients[i], after.clients[id]))
  {
    hide Delta, SyncClient, SyncClients, SyncKeys, DistinctClients, ClientMerged, LookupClient;
    var id := previous.clients[i].id;
    DeltaSettlesClients(db, previous, current);
    var a := SyncKeys(db, previous.keys, current.keys, |current.keys|).value;
    ClientHasOneStep(a, previous.clients, current.clients, i);
    KnownClientAt(previous.clients, current.clients, i);
    KnownClientMerges(SyncClients(a, previous.clients, current.clients, i).value, previous.clients,
                      current.clients[i]);
  }

  lemma KnownClientAt(previous: seq<Client>, current: seq<Client>, i: nat)
    requires LocalClients(previous, current) && i < |current|
    ensures LookupClient(previous, current[i].id) == if i < |previous| then Some(previous[i]) else None
    ensures i < |previous| ==> previous[i].id == current[i].id
  {
    WhereClientIs(previous, current, current[i].id);
  }

  lemma DeltaInsertsClient(db: Db, previous: State, current: State, i: nat)
    requires LocalClients(previous.clients, current.clients) && |previous.clients| <= i < |current.clients|
    requires Delta(db, previous, current).Some?
    ensures var id := current.clients[i].id; var after := Delta(db, previous, current).value;
            id !in db.clients && id in after.clients && after.clients[id] == current.clients[i]
  {
    hide Delta, SyncClients, SyncKeys, DistinctClients, LookupClient, ClientIndexesAllow;
    DeltaSettlesClients(db, previous, current);
    var a := SyncKeys(db, previous.keys, current.keys, |current.keys|).value;
    ClientHasOneStep(a, previous.clients, current.clients, i);
    KnownClientAt(previous.clients, current.clients, i);
  }

  lemma DeltaSparesClient(db: Db, previous: State, current: State, id: Id)
    requires Delta(db, previous, current).Some? && forall c | c in current.clients :: c.id != id
    ensures ClientRowOf(Delta(db, previous, current).value, id) == ClientRowOf(db, id)
  {
    hide Delta, SyncKeys, SyncClients;
    DeltaSettlesClients(db, previous, current);
    var a := SyncKeys(db, previous.keys, current.keys, |current.keys|).value;
    assert forall j | 0 <= j < |current.clients| :: current.clients[j] in current.clients;
    SyncClientsLeaveOthers(a, previous.clients, current.clients, |current.clients|, id);
  }

  lemma {:induction false} CursorsToggle(db: Db, previous: State, current: State, n: nat, p: Profile)
    requires SyncCursors(db, previous, current, n).Some?
    ensures var after := SyncCursors(db, previous, current, n).value;
            && (p in after.cursors <==> p in db.cursors)
            && (p in db.cursors ==>
                  after.cursors[p] == if p < n && (CursorOf(previous, p) - CursorOf(current, p)) % 2 == 1
                                      then (if db.cursors[p] == 1 then 2 else 1) else db.cursors[p])
    decreases n
  {
    if n > 0 {
      CursorsToggle(db, previous, current, n - 1, p);
    }
  }

  lemma {:induction false} ClientsSpareCursors(db: Db, previous: seq<Client>, current: seq<Client>, n: nat)
    requires n <= |current| && SyncClients(db, previous, current, n).Some?
    ensures SyncClients(db, previous, current, n).value.cursors == db.cursors
  {
    if n > 0 {
      ClientsSpareCursors(db, previous, current, n - 1);
    }
  }

  lemma {:induction false} KeysSpareCursors(db: Db, previous: seq<Key>, current: seq<Key>, n: nat)
    requires n <= |current| && SyncKeys(db, previous, current, n).Some?
    ensures SyncKeys(db, previous, current, n).value.cursors == db.cursors
  {
    if n > 0 {
      KeysSpareCursors(db, previous, current, n - 1);
    }
  }

  /** A cursor is toggled exactly where its gateway moved it by an odd number of slots. */
  lemma DeltaTogglesCursors(db: Db, previous: State, current: State, p: Profile)
    requires Delta(db, previous, current).Some? && p < PROFILES && p in db.cursors
    ensures var after := Delta(db, previous, current).value; var moved := CursorOf(current, p) - CursorOf(previous, p);
            p in after.cursors
            && (if moved % 2 == 0 then after.cursors[p] == db.cursors[p]
                else after.cursors[p] == if db.cursors[p] == 1 then 2 else 1)
  {
    hide SyncKeys, SyncClients, SyncCursors;
    var a := SyncKeys(db, previous.keys, current.keys, |current.keys|).value;
    KeysSpareCursors(db, previous.keys, current.keys, |current.keys|);
    var b := SyncClients(a, previous.clients, current.clients, |current.clients|).value;
    ClientsSpareCursors(a, previous.clients, current.clients, |current.clients|);
    CursorsToggle(b, previous, current, PROFILES, p);
  }

  // ---- When a delta commits -----------------------------------------------------------

  predicate CountFits(row: int, was: int, now: int) {
    now == was || (now <= I64_MAX && was <= I64_MAX && row + (now - was) <= I64_MAX)
  }

  predicate Current<T(==)>(row: T, was: T, now: T) {
    now == was || row == was
  }

  /** The row has every changed field as the gateway knew it, and room for its counts. */
  predicate KeyFits(row: Option<KeyRow>, was: Key, now: Key) {
    || SameKey(was, now)
    || (&& row.Some?
        && Current(row.value.key.enabled, was.enabled, now.enabled)
        && Current(row.value.key.verified, was.verified, now.verified)
        && Current(row.value.key.retired, was.retired, now.retired)
        && Current(row.value.key.cooldown, was.cooldown, now.cooldown)
        && CountFits(row.value.key.requests, was.requests, now.requests)
        && CountFits(row.value.key.failures, was.failures, now.failures))
  }

  lemma KnownKeyCommits(db: Db, previous: seq<Key>, key: Key)
    requires Lookup(previous, key.id).Some?
    ensures SyncKey(db, previous, key).Some? <==> KeyFits(RowOf(db, key.id), Lookup(previous, key.id).value, key)
  {
    hide Lookup;
  }

  /** The statements about known keys go through exactly if each of their rows fits. */
  lemma {:induction false} KnownKeysCommit(db: Db, previous: seq<Key>, current: seq<Key>, n: nat)
    requires n <= |previous| <= |current| && DistinctKeys(current)
    requires forall j | 0 <= j < |previous| :: previous[j].id == current[j].id
    ensures SyncKeys(db, previous, current, n).Some? <==>
              forall i | 0 <= i < n :: KeyFits(RowOf(db, current[i].id), previous[i], current[i])
    decreases n
  {
    hide SyncKey, KeyFits, Lookup;
    if n > 0 {
      KnownKeysCommit(db, previous, current, n - 1);
      if SyncKeys(db, previous, current, n - 1).Some? {
        assert forall j | 0 <= j < n - 1 :: Apart(current[j], current[n - 1]);
        SyncKeysLeaveOthers(db, previous, current, n - 1, current[n - 1].id);
        LookupBefore(previous, current, n - 1);
        KnownKeyCommits(SyncKeys(db, previous, current, n - 1).value, previous, current[n - 1]);
      }
    }
  }

  /** The unique indexes over clients hold. */
  predicate ClientRowsDistinct(db: Db) {
    forall a, b | a in db.clients && b in db.clients && a != b :: RowsApart(db.clients[a], db.clients[b])
  }

  predicate RowsApart(a: Client, b: Client) {
    a.digest != b.digest && (a.active && b.active ==> a.name != b.name)
  }

  predicate ClientFits(row: Option<Client>, was: Client, now: Client) {
    || SameClient(was, now)
    || (&& row.Some?
        && Current(row.value.active, was.active, now.active)
        && Current(row.value.digest, was.digest, now.digest)
        && Current(row.value.scopes, was.scopes, now.scopes)
        && Current(row.value.revoked, was.revoked, now.revoked)
        && CountFits(row.value.requests, was.requests, now.requests))
  }

  /** Nothing the unique indexes look at was changed. */
  predicate OnlyUsed(was: Client, now: Client) {
    was.active == now.active && was.digest == now.digest
  }

  lemma KnownClientCommits(db: Db, previous: seq<Client>, client: Client)
    requires LookupClient(previous, client.id).Some? && ClientRowsDistinct(db)
    requires forall id | id in db.clients :: db.clients[id].id == id
    ensures var was := LookupClient(previous, client.id).value; var row := ClientRowOf(db, client.id);
            && (SyncClient(db, previous, client).Some? ==> ClientFits(row, was, client))
            && (ClientFits(row, was, client) && OnlyUsed(was, client) ==>
                  && SyncClient(db, previous, client).Some?
                  && ClientRowsDistinct(SyncClient(db, previous, client).value)
                  && forall id | id in SyncClient(db, previous, client).value.clients ::
                       SyncClient(db, previous, client).value.clients[id].id == id)
  {
    hide LookupClient;
  }

  lemma {:induction false} UsedClientsCommit(db: Db, previous: seq<Client>, current: seq<Client>, n: nat)
    requires LocalClients(previous, current) && n <= |previous| && ClientRowsDistinct(db)
    requires forall id | id in db.clients :: db.clients[id].id == id
    requires forall i | 0 <= i < n ::
               OnlyUsed(previous[i], current[i]) && ClientFits(ClientRowOf(db, current[i].id), previous[i], current[i])
    ensures SyncClients(db, previous, current, n).Some?
    ensures var after := SyncClients(db, previous, current, n).value;
            ClientRowsDistinct(after) && forall id | id in after.clients :: after.clients[id].id == id
    decreases n
  {
    hide SyncClient, ClientFits, LookupClient, ClientRowsDistinct, OnlyUsed;
    if n > 0 {
      UsedClientsCommit(db, previous, current, n - 1);
      KnownClientAt(previous, current, n - 1);
      SyncClientsLeaveOthers(db, previous, current, n - 1, current[n - 1].id);
      KnownClientCommits(SyncClients(db, previous, current, n - 1).value, previous, current[n - 1]);
    }
  }

  lemma {:induction false} CursorsCommit(db: Db, previous: State, current: State, n: nat)
    requires forall p | 0 <= p < n :: p in db.cursors
    ensures SyncCursors(db, previous, current, n).Some?
    ensures SyncCursors(db, previous, current, n).value.cursors.Keys == db.cursors.Keys
    decreases n
  {
    if n > 0 {
      CursorsCommit(db, previous, current, n - 1);
    }
  }

  /** Counting never fails because of what other gateways did: a delta that adds no row and
      changes neither an index nor a field that is stale commits, whatever the rows hold. */
  lemma CountingCommits(db: Db, previous: State, current: State)
    requires Local(previous, current) && |previous.keys| == |current.keys|
    requires LocalClients(previous.clients, current.clients) && |previous.clients| == |current.clients|
    requires forall i | 0 <= i < |current.keys| ::
               KeyFits(RowOf(db, current.keys[i].id), previous.keys[i], current.keys[i])
    requires forall i | 0 <= i < |current.clients| ::
               && OnlyUsed(previous.clients[i], current.clients[i])
               && ClientFits(ClientRowOf(db, current.clients[i].id), previous.clients[i], current.clients[i])
    requires ClientRowsDistinct(db) && (forall id | id in db.clients :: db.clients[id].id == id)
    requires forall p | 0 <= p < PROFILES :: p in db.cursors
    ensures Delta(db, previous, current).Some?
  {
    hide SyncKeys, SyncClients, SyncCursors, KeyFits, ClientFits, DistinctKeys, DistinctClients, ClientRowsDistinct;
    SameIds(previous.keys, current.keys);
    KnownKeysCommit(db, previous.keys, current.keys, |current.keys|);
    SyncKeysSpareClients(db, previous.keys, current.keys, |current.keys|);
    KeysSpareCursors(db, previous.keys, current.keys, |current.keys|);
    var a := SyncKeys(db, previous.keys, current.keys, |current.keys|).value;
    SameRowsSameDistinct(db, a);
    UsedClientsCommit(a, previous.clients, current.clients, |current.clients|);
    ClientsSpareCursors(a, previous.clients, current.clients, |current.clients|);
    CursorsCommit(SyncClients(a, previous.clients, current.clients, |current.clients|).value, previous, current,
                  PROFILES);
  }

  lemma SameRowsSameDistinct(a: Db, b: Db)
    requires a.clients == b.clients
    ensures ClientRowsDistinct(a) <==> ClientRowsDistinct(b)
  {}

  // ---- Interleaved deltas ----------------------------------------------------------------

  /** The value of a field of a key that the last committed delta which changed it wrote. */
  function LastKeyWrite<T(==)>(db: Db, run: seq<Commit>, id: Id, field: Key -> T): T
    requires id in db.keys
  {
    if run == [] then field(db.keys[id].key)
    else
      var front := run[..|run| - 1]; var c := run[|run| - 1];
      var was, now := Lookup(c.previous.keys, id), Lookup(c.current.keys, id);
      if Delta(Settled(db, front), c.previous, c.current).Some? && was.Some? && now.Some?
         && field(now.value) != field(was.value) then
        field(now.value)
      else LastKeyWrite(db, front, id, field)
  }

  /** The fields that are compared and set. */
  ghost predicate ComparedOfKey<T(!new)>(field: Key -> T) {
    forall row, was, now, after | KeyMerged(row, was, now, after) ::
      Merged(field(row), field(was), field(now), field(after))
  }

  lemma DeltaWritesField<T(!new)>(db: Db, previous: State, current: State, id: Id, field: Key -> T)
    requires Local(previous, current) && id in db.keys && Delta(db, previous, current).Some? && ComparedOfKey(field)
    ensures var after := Delta(db, previous, current).value;
            var was, now := Lookup(previous.keys, id), Lookup(current.keys, id);
            && id in after.keys
            && (if was.Some? && now.Some? && field(now.value) != field(was.value) then
                  field(db.keys[id].key) == field(was.value) && field(after.keys[id].key) == field(now.value)
                else field(after.keys[id].key) == field(db.keys[id].key))
  {
    hide Delta, KeyMerged, DistinctKeys, FindKey, KeySucceeds;
    WhereKeyIs(previous.keys, current.keys, id);
    var at := FindKey(current.keys, id);
    if at.None? {
      NotThere(current.keys, id);
      DeltaSparesKey(db, previous, current, id);
    } else if at.value >= |previous.keys| {
      DeltaInsertsKey(db, previous, current, at.value);
    } else {
      SameIds(previous.keys, current.keys);
      LookupFinds(previous.keys, at.value);
      LookupFinds(current.keys, at.value);
      DeltaMergesKey(db, previous, current, at.value);
    }
  }

  lemma NotThere(keys: seq<Key>, id: Id)
    requires forall j | 0 <= j < |keys| :: keys[j].id != id
    ensures forall k | k in keys :: k.id != id
  {}

  /** After any deltas of any gateways, in the order they got the lock and aborted ones
      among them, each compared field of a key holds what the last delta that changed it
      wrote: no stale copy ever puts an older value back. */
  lemma {:induction false} FieldsHoldLastWrites<T(!new)>(db: Db, run: seq<Commit>, id: Id, field: Key -> T)
    requires id in db.keys && ComparedOfKey(field) && forall c | c in run :: Local(c.previous, c.current)
    ensures id in Settled(db, run).keys && field(Settled(db, run).keys[id].key) == LastKeyWrite(db, run, id, field)
    decreases |run|
  {
    hide Delta, Local, ComparedOfKey;
    if run != [] {
      var front := run[..|run| - 1];
      var c := run[|run| - 1];
      FieldsHoldLastWrites(db, front, id, field);
      if Delta(Settled(db, front), c.previous, c.current).Some? {
        DeltaWritesField(Settled(db, front), c.previous, c.current, id, field);
      }
    }
  }

  lemma StateIsCompared()
    ensures ComparedOfKey((k: Key) => k.enabled) && ComparedOfKey((k: Key) => k.verified)
    ensures ComparedOfKey((k: Key) => k.retired) && ComparedOfKey((k: Key) => k.cooldown)
  {}

  function LastClientWrite<T(==)>(db: Db, run: seq<Commit>, id: Id, field: Client -> T): T
    requires id in db.clients
  {
    if run == [] then field(db.clients[id])
    else
      var front := run[..|run| - 1]; var c := run[|run| - 1];
      var was, now := LookupClient(c.previous.clients, id), LookupClient(c.current.clients, id);
      if Delta(Settled(db, front), c.previous, c.current).Some? && was.Some? && now.Some?
         && field(now.value) != field(was.value) then
        field(now.value)
      else LastClientWrite(db, front, id, field)
  }

  ghost predicate ComparedOfClient<T(!new)>(field: Client -> T) {
    forall row, was, now, after | ClientMerged(row, was, now, after) ::
      Merged(field(row), field(was), field(now), field(after))
  }

  lemma DeltaWritesClientField<T(!new)>(db: Db, previous: State, current: State, id: Id, field: Client -> T)
    requires LocalClients(previous.clients, current.clients) && id in db.clients
    requires Delta(db, previous, current).Some? && ComparedOfClient(field)
    ensures var after := Delta(db, previous, current).value;
            var was, now := LookupClient(previous.clients, id), LookupClient(current.clients, id);
            && id in after.clients
            && (if was.Some? && now.Some? && field(now.value) != field(was.value) then
                  field(db.clients[id]) == field(was.value) && field(after.clients[id]) == field(now.value)
                else field(after.clients[id]) == field(db.clients[id]))
  {
    hide Delta, ClientMerged, DistinctClients, FindClient;
    WhereClientIs(previous.clients, current.clients, id);
    var at := FindClient(current.clients, id, false);
    if at.None? {
      ClientNotThere(current.clients, id);
      DeltaSparesClient(db, previous, current, id);
    } else if at.value >= |previous.clients| {
      DeltaInsertsClient(db, previous, current, at.value);
    } else {
      DeltaMergesClient(db, previous, current, at.value);
    }
  }

  lemma ClientNotThere(clients: seq<Client>, id: Id)
    requires forall j | 0 <= j < |clients| :: clients[j].id != id
    ensures forall c | c in clients :: c.id != id
  {}

  /** The same of clients. */
  lemma {:induction false} ClientFieldsHoldLastWrites<T(!new)>(db: Db, run: seq<Commit>, id: Id, field: Client -> T)
    requires id in db.clients && ComparedOfClient(field)
    requires forall c | c in run :: LocalClients(c.previous.clients, c.current.clients)
    ensures id in Settled(db, run).clients
    ensures field(Settled(db, run).clients[id]) == LastClientWrite(db, run, id, field)
    decreases |run|
  {
    hide Delta, LocalClients, ComparedOfClient;
    if run != [] {
      var front := run[..|run| - 1];
      var c := run[|run| - 1];
      ClientFieldsHoldLastWrites(db, front, id, field);
      if Delta(Settled(db, front), c.previous, c.current).Some? {
        DeltaWritesClientField(Settled(db, front), c.previous, c.current, id, field);
      }
    }
  }

  lemma ClientStateIsCompared()
    ensures ComparedOfClient((c: Client) => c.active) && ComparedOfClient((c: Client) => c.digest)
    ensures ComparedOfClient((c: Client) => c.scopes) && ComparedOfClient((c: Client) => c.revoked)
  {}

  /** A revoked client stays revoked in the rows, whatever stale copies other gateways
      still hold of it. */
  lemma {:induction false} RevokedRowStays(db: Db, run: seq<Commit>, id: Id)
    requires id in db.clients && !db.clients[id].active
    requires forall c | c in run :: LocalClients(c.previous.clients, c.current.clients)
    ensures id in Settled(db, run).clients && !Settled(db, run).clients[id].active
    decreases |run|
  {
    hide Delta, LocalClients, LookupClient;
    if run != [] {
      var front := run[..|run| - 1];
      var c := run[|run| - 1];
      RevokedRowStays(db, front, id);
      if Delta(Settled(db, front), c.previous, c.current).Some? {
        ClientStateIsCompared();
        DeltaWritesClientField(Settled(db, front), c.previous, c.current, id, (c: Client) => c.active);
        NeverReactivated(c.previous.clients, c.current.clients, id);
      }
    }
  }

  lemma NeverReactivated(previous: seq<Client>, current: seq<Client>, id: Id)
    requires LocalClients(previous, current)
    ensures var was, now := LookupClient(previous, id), LookupClient(current, id);
            was.Some? && now.Some? && now.value.active ==> was.value.active
  {
    hide DistinctClients, FindClient;
    WhereClientIs(previous, current, id);
  }

  // ---- What does not survive stale copies --------------------------------------------------

  /** Each gateway enables only keys it knows to be verified and in service; the row then
      is enabled though it is not exactly if the change meets a row that another gateway
      quarantined or retired, or takes the verification or the place from a row that
      another gateway enabled. */
  lemma RoutableExactly(row: Key, was: Key, now: Key, after: Key)
    requires KeyMerged(row, was, now, after) && KeySucceeds(was, now)
    requires Routable(row) && Routable(was) && Routable(now)
    ensures Routable(after) <==>
              && (now.enabled && !was.enabled ==> !row.retired && (row.verified || !was.verified))
              && (row.enabled && now.enabled == was.enabled ==>
                    (was.verified ==> now.verified) && (now.retired ==> was.retired))
  {}

  const STALE := Key(0, "a", 0, 0, false, true, false, None, 0, 0)

  const STALE_COPY := State([STALE], [], map[])

  const QUARANTINED := Db(map[0 := KeyRow(STALE.(verified := false), 1)], map[], map p: nat | 0 <= p < PROFILES :: 1)

  /** A key another gateway quarantined while it was disabled is enabled by a gateway
      that still knows it as verified: the row ends enabled and unverified. */
  lemma EnableQuarantined()
    ensures Sound(STALE_COPY) && Allowed(STALE_COPY, SetEnabled(0, true, 0))
    ensures var delta := Delta(QUARANTINED, STALE_COPY, Next(STALE_COPY, SetEnabled(0, true, 0)));
            && delta.Some? && 0 in delta.value.keys
            && delta.value.keys[0].key.enabled && !delta.value.keys[0].key.verified
  {
    hide Delta, Apply, Next;
    var op := SetEnabled(0, true, 0);
    assert STALE in STALE_COPY.keys;
    OperationMeans(STALE_COPY, op);
    var current := Next(STALE_COPY, op);
    assert current.keys[0] == STALE.(enabled := true);
    assert Local(STALE_COPY, current) && LocalClients([], []);
    CountingCommits(QUARANTINED, STALE_COPY, current);
    DeltaMergesKey(QUARANTINED, STALE_COPY, current, 0);
  }
}
