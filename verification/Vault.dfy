/** The in-memory vault: upstream keys with their health, downstream clients, and the
    routing cursors. Secrets, digests and identifiers are opaque values. */
module Vault {
  import opened Common

  type Id = nat
  type Profile = nat
  type Time = int

  const SECOND := 1_000_000_000
  const MAX_COOLDOWN := 300 * SECOND
  const MAX_UPSTREAM_KEYS := 2
  const PROFILES := 8

  datatype Key = Key(id: Id, name: string, fingerprint: nat, secret: nat, enabled: bool, verified: bool, retired: bool,
                     cooldown: Option<Time>, requests: U64, failures: U64)

  datatype Client = Client(id: Id, name: string, scopes: seq<string>, digest: nat, active: bool, requests: U64,
                           lastUsed: Option<Time>, created: Time, revoked: Option<Time>)

  /** `cursors` holds the effective cursor of each profile. */
  datatype State = State(keys: seq<Key>, clients: seq<Client>, cursors: map<Profile, nat>)

  /** Operations, with the values the vault draws itself: the clock, identifiers,
      fingerprints and digests. */
  datatype Op =
    | Add(name: string, nameOk: bool, shapeOk: bool, newId: Id, fingerprint: nat, secret: nat)
    | SetEnabled(id: Id, enabled: bool, now: Time)
    | MarkVerified(id: Id)
    | Delete(id: Id)
    | Quarantine(id: Id)
    | RecordRequest(id: Id)
    | RecordFailure(id: Id, retryAfter: Option<int>, now: Time)
    | Issue(name: string, nameOk: bool, scopes: Option<seq<string>>, newId: Id, digest: nat, now: Time)
    | Revoke(id: Id, now: Time)
    | Rotate(id: Id, digest: nat)
    | UpdateScopes(id: Id, scopes: Option<seq<string>>)
    | RecordUse(id: Id, now: Time)
    | SetCursor(profile: Profile, cursor: nat)

  // ---- What each operation does ------------------------------------------------

  function CountActive(keys: seq<Key>): (n: nat)
    ensures n <= |keys|
  {
    if keys == [] then 0
    else CountActive(keys[..|keys| - 1]) + if keys[|keys| - 1].retired then 0 else 1
  }

  /** The first position from `i` on that satisfies the condition. */
  function Position<T>(s: seq<T>, wanted: T -> bool, i: nat): (p: Option<nat>)
    ensures p.Some? ==> i <= p.value < |s| && wanted(s[p.value]) && forall j | i <= j < p.value :: !wanted(s[j])
    ensures p.None? ==> forall j | i <= j < |s| :: !wanted(s[j])
    decreases |s| - i
  {
    if i >= |s| then None else if wanted(s[i]) then Some(i) else Position(s, wanted, i + 1)
  }

  function FindKey(keys: seq<Key>, id: Id): Option<nat> {
    Position(keys, (k: Key) => k.id == id, 0)
  }

  function FindLive(keys: seq<Key>, id: Id): Option<nat> {
    Position(keys, (k: Key) => k.id == id && !k.retired, 0)
  }

  function FindClient(clients: seq<Client>, id: Id, mustBeActive: bool): Option<nat> {
    Position(clients, (c: Client) => c.id == id && (mustBeActive ==> c.active), 0)
  }

  predicate Cooling(k: Key, now: Time) {
    k.cooldown.Some? && k.cooldown.value > now
  }

  function Clamp(value: int, low: int, high: int): int {
    if value < low then low else if value > high then high else value
  }

  function PowerOfTwo(n: nat): nat {
    if n == 0 then 1 else 2 * PowerOfTwo(n - 1)
  }

  /** A provider's retry-after within five minutes, or an exponential back-off. */
  function Delay(retryAfter: Option<int>, failures: nat): int {
    match retryAfter
    case Some(d) => Clamp(d, 0, MAX_COOLDOWN)
    case None => PowerOfTwo(Min(failures, 6)) * SECOND
  }

  function Failed(k: Key, retryAfter: Option<int>, now: Time): Key {
    var counted := k.(failures := SaturatingAdd(k.failures, 1));
    if k.retired then counted.(cooldown := None)
    else
      var until := now + Delay(retryAfter, counted.failures);
      counted.(cooldown := Some(if k.cooldown.Some? then Max(k.cooldown.value, until) else until))
  }

  /** The key the new one replaces: the first disabled one, when both slots are taken. */
  function Replacement(keys: seq<Key>): Option<nat> {
    if CountActive(keys) >= MAX_UPSTREAM_KEYS then Position(keys, (k: Key) => !k.retired && !k.enabled, 0) else None
  }

  function Added(keys: seq<Key>, op: Op): Option<seq<Key>>
    requires op.Add?
  {
    if !op.nameOk || !op.shapeOk then None
    else if (exists k | k in keys :: k.fingerprint == op.fingerprint) then None
    else if (exists k | k in keys :: !k.retired && k.name == op.name) then None
    else
      var replaced := Replacement(keys);
      if CountActive(keys) >= MAX_UPSTREAM_KEYS && replaced.None? then None
      else
        var kept := if replaced.Some?
                    then keys[replaced.value := keys[replaced.value].(retired := true, enabled := false)] else keys;
        Some(kept + [Key(op.newId, op.name, op.fingerprint, op.secret, false, false, false, None, 0, 0)])
  }

  /** The one key an operation rewrites, or `None` where it bails. */
  function KeyEdit(keys: seq<Key>, op: Op): (edit: Option<(nat, Key)>)
    ensures edit.Some? ==> edit.value.0 < |keys|
  {
    match op
    case SetEnabled(id, enabled, now) =>
      var i := FindLive(keys, id);
      if i.None? || (enabled && (!keys[i.value].verified || Cooling(keys[i.value], now))) then None
      else Some((i.value, keys[i.value].(enabled := enabled)))
    case MarkVerified(id) =>
      var i := FindLive(keys, id);
      if i.None? then None else Some((i.value, keys[i.value].(verified := true, cooldown := None, failures := 0)))
    case Delete(id) =>
      var i := FindLive(keys, id);
      if i.None? then None
      else Some((i.value, keys[i.value].(retired := true, enabled := false, verified := false, cooldown := None)))
    case Quarantine(id) =>
      var i := FindLive(keys, id);
      if i.None? then None
      else Some((i.value, keys[i.value].(enabled := false, verified := false, cooldown := None, failures := 0)))
    case RecordRequest(id) =>
      var i := FindKey(keys, id);
      if i.None? then None
      else Some((i.value,
                 keys[i.value].(requests := SaturatingAdd(keys[i.value].requests, 1), failures := 0, cooldown := None)))
    case RecordFailure(id, retryAfter, now) =>
      var i := FindKey(keys, id);
      if i.None? then None else Some((i.value, Failed(keys[i.value], retryAfter, now)))
    case _ => None
  }

  function ClientEdit(clients: seq<Client>, op: Op): (edit: Option<(nat, Client)>)
    ensures edit.Some? ==> edit.value.0 < |clients|
  {
    match op
    case Revoke(id, now) =>
      var i := FindClient(clients, id, false);
      if i.None? then None
      else
        var c := clients[i.value];
        Some((i.value, if c.active then c.(active := false, revoked := Some(now)) else c))
    case Rotate(id, digest) =>
      var i := FindClient(clients, id, true);
      if i.None? then None else Some((i.value, clients[i.value].(digest := digest)))
    case UpdateScopes(id, scopes) =>
      var i := FindClient(clients, id, true);
      if scopes.None? || i.None? then None else Some((i.value, clients[i.value].(scopes := scopes.value)))
    case RecordUse(id, now) =>
      var i := FindClient(clients, id, true);
      if i.None? then None
      else Some((i.value,
                 clients[i.value].(requests := SaturatingAdd(clients[i.value].requests, 1), lastUsed := Some(now))))
    case _ => None
  }

  function Issued(clients: seq<Client>, op: Op): Option<seq<Client>>
    requires op.Issue?
  {
    if !op.nameOk || op.scopes.None? then None
    else if (exists c | c in clients :: c.active && c.name == op.name) then None
    else Some(clients + [Client(op.newId, op.name, op.scopes.value, op.digest, true, 0, None, op.now, None)])
  }

  /** The vault after an operation, or `None` where the operation is refused. */
  function Apply(s: State, op: Op): Option<State> {
    match op
    case Add(_, _, _, _, _, _) =>
      var keys := Added(s.keys, op);
      if keys.None? then None else Some(s.(keys := keys.value))
    case Issue(_, _, _, _, _, _) =>
      var clients := Issued(s.clients, op);
      if clients.None? then None else Some(s.(clients := clients.value))
    case SetCursor(profile, cursor) => Some(s.(cursors := s.cursors[profile := cursor]))
    case SetEnabled(_, _, _) | MarkVerified(_) | Delete(_) | Quarantine(_) | RecordRequest(_)
       | RecordFailure(_, _, _) =>
      var edit := KeyEdit(s.keys, op);
      if edit.None? then None else Some(s.(keys := s.keys[edit.value.0 := edit.value.1]))
    case Revoke(_, _) | Rotate(_, _) | UpdateScopes(_, _) | RecordUse(_, _) =>
      var edit := ClientEdit(s.clients, op);
      if edit.None? then None
      else Some(s.(clients := s.clients[edit.value.0 := edit.value.1]))
  }

  // ---- What every sequence of operations keeps -------------------------------------

  predicate Apart(a: Key, b: Key) {
    a.id != b.id && a.fingerprint != b.fingerprint && (!a.retired && !b.retired ==> a.name != b.name)
  }

  predicate DistinctKeys(keys: seq<Key>) {
    forall i, j | 0 <= i < j < |keys| :: Apart(keys[i], keys[j])
  }

  predicate Routable(k: Key) {
    k.enabled ==> k.verified && !k.retired
  }

  predicate AllRoutable(keys: seq<Key>) {
    forall i | 0 <= i < |keys| :: Routable(keys[i])
  }

  predicate DistinctClients(clients: seq<Client>) {
    forall i, j | 0 <= i < j < |clients| ::
      && clients[i].id != clients[j].id && clients[i].digest != clients[j].digest
      && (clients[i].active && clients[j].active ==> clients[i].name != clients[j].name)
  }

  predicate Sound(s: State) {
    && CountActive(s.keys) <= MAX_UPSTREAM_KEYS && DistinctKeys(s.keys)
    && AllRoutable(s.keys)
    && DistinctClients(s.clients)
  }

  /** The values the vault draws are new: identifiers are random, digests are of
      random tokens. (Fingerprints are compared by the operation itself.) */
  predicate DrawsFresh(s: State, op: Op) {
    match op
    case Add(_, _, _, newId, _, _) => forall k | k in s.keys :: k.id != newId
    case Issue(_, _, _, newId, digest, _) => forall c | c in s.clients :: c.id != newId && c.digest != digest
    case Rotate(_, digest) => forall c | c in s.clients :: c.digest != digest
    case _ => true
  }

  lemma {:induction false} CountActiveUpdate(keys: seq<Key>, i: nat, k: Key)
    requires i < |keys|
    ensures CountActive(keys[i := k]) ==
              CountActive(keys) - (if keys[i].retired then 0 else 1) + (if k.retired then 0 else 1)
    decreases |keys|
  {
    var n := |keys| - 1;
    if i < n {
      assert keys[i := k][..n] == keys[..n][i := k];
      CountActiveUpdate(keys[..n], i, k);
    } else {
      assert keys[i := k][..n] == keys[..n];
    }
  }

  lemma CountActiveAppend(keys: seq<Key>, k: Key)
    ensures CountActive(keys + [k]) == CountActive(keys) + if k.retired then 0 else 1
  {
    assert (keys + [k])[..|keys|] == keys;
  }

  /** What no operation changes in a key, and what only grows. */
  predicate KeySucceeds(before: Key, after: Key) {
    && after.id == before.id && after.name == before.name && after.fingerprint == before.fingerprint
    && after.secret == before.secret
    && (before.retired ==>
          after.retired && !after.enabled && (after.cooldown.None? || after.cooldown == before.cooldown))
    && before.requests <= after.requests
    && (after.cooldown.Some? && before.cooldown.Some? ==> before.cooldown.value <= after.cooldown.value)
  }

  predicate ClientSucceeds(before: Client, after: Client) {
    && after.id == before.id && after.name == before.name && after.created == before.created
    && (!before.active ==> after == before)
    && before.requests <= after.requests
  }

  predicate Evolves(a: State, b: State) {
    && |a.keys| <= |b.keys| && (forall i | 0 <= i < |a.keys| :: KeySucceeds(a.keys[i], b.keys[i]))
    && |a.clients| <= |b.clients| && (forall i | 0 <= i < |a.clients| :: ClientSucceeds(a.clients[i], b.clients[i]))
  }

  lemma KeysSucceedThemselves(keys: seq<Key>)
    requires AllRoutable(keys)
    ensures forall i | 0 <= i < |keys| :: KeySucceeds(keys[i], keys[i])
  {}

  lemma ClientsSucceedThemselves(clients: seq<Client>)
    ensures forall i | 0 <= i < |clients| :: ClientSucceeds(clients[i], clients[i])
  {}

  lemma KeyEditSucceeds(keys: seq<Key>, op: Op)
    requires KeyEdit(keys, op).Some?
    requires Routable(keys[KeyEdit(keys, op).value.0])
    ensures var (i, k) := KeyEdit(keys, op).value;
            && KeySucceeds(keys[i], k) && Routable(k) && (k.retired <==> keys[i].retired || op.Delete?)
  {}

  lemma KeyEditIsSound(keys: seq<Key>, op: Op)
    requires KeyEdit(keys, op).Some? && DistinctKeys(keys) && AllRoutable(keys)
    requires CountActive(keys) <= MAX_UPSTREAM_KEYS
    ensures var (i, k) := KeyEdit(keys, op).value; var after := keys[i := k];
            && DistinctKeys(after) && AllRoutable(after) && CountActive(after) <= MAX_UPSTREAM_KEYS
            && forall j | 0 <= j < |keys| :: KeySucceeds(keys[j], after[j])
  {
    KeyEditSucceeds(keys, op);
    var (i, k) := KeyEdit(keys, op).value;
    CountActiveUpdate(keys, i, k);
    KeysSucceedThemselves(keys);
    forall j | 0 <= j < |keys| ensures keys[i := k][j] == if j == i then k else keys[j] {}
    hide KeyEdit, CountActive;
  }

  /** A new key finds a free place: a disabled one gives up its own when both slots
      are taken, and otherwise the vault is left as it was. */
  lemma AddedIsSound(keys: seq<Key>, op: Op)
    requires op.Add? && Added(keys, op).Some? && DistinctKeys(keys) && AllRoutable(keys)
    requires CountActive(keys) <= MAX_UPSTREAM_KEYS && (forall k | k in keys :: k.id != op.newId)
    ensures var after := Added(keys, op).value;
            && DistinctKeys(after) && AllRoutable(after) && CountActive(after) <= MAX_UPSTREAM_KEYS
            && |after| == |keys| + 1 && (forall j | 0 <= j < |keys| :: KeySucceeds(keys[j], after[j]))
  {
    var replaced := Replacement(keys);
    var kept := if replaced.Some?
                then keys[replaced.value := keys[replaced.value].(retired := true, enabled := false)] else keys;
    KeysSucceedThemselves(keys);
    if replaced.Some? {
      RetiringIsSound(keys, replaced.value);
    }
    var k := Key(op.newId, op.name, op.fingerprint, op.secret, false, false, false, None, 0, 0);
    forall i | 0 <= i < |kept| ensures Apart(kept[i], k) {
      assert keys[i] in keys;
    }
    AppendIsSound(kept, k);
    hide Replacement, DistinctKeys, AllRoutable, CountActive, KeySucceeds;
    assert Added(keys, op).value == kept + [k];
  }

  lemma AppendIsSound(keys: seq<Key>, k: Key)
    requires DistinctKeys(keys) && AllRoutable(keys) && CountActive(keys) < MAX_UPSTREAM_KEYS && Routable(k)
    requires forall i | 0 <= i < |keys| :: Apart(keys[i], k)
    ensures var after := keys + [k];
            DistinctKeys(after) && AllRoutable(after) && CountActive(after) <= MAX_UPSTREAM_KEYS
  {
    CountActiveAppend(keys, k);
    var after := keys + [k];
    forall i, j | 0 <= i < j < |after| ensures Apart(after[i], after[j]) {
      if j < |keys| {
        assert after[i] == keys[i] && after[j] == keys[j];
      } else {
        assert after[i] == keys[i];
      }
    }
  }

  lemma RetiringIsSound(keys: seq<Key>, i: nat)
    requires i < |keys| && DistinctKeys(keys) && AllRoutable(keys) && !keys[i].retired
    ensures var kept := keys[i := keys[i].(retired := true, enabled := false)];
            && DistinctKeys(kept) && AllRoutable(kept) && CountActive(kept) == CountActive(keys) - 1
            && forall j | 0 <= j < |keys| :: KeySucceeds(keys[j], kept[j])
  {
    CountActiveUpdate(keys, i, keys[i].(retired := true, enabled := false));
    KeysSucceedThemselves(keys);
  }

  lemma ClientsStaySound(s: State, op: Op)
    requires DistinctClients(s.clients) && DrawsFresh(s, op) && Apply(s, op).Some?
    requires op.Issue? || op.Revoke? || op.Rotate? || op.UpdateScopes? || op.RecordUse?
    ensures var after := Apply(s, op).value;
            && DistinctClients(after.clients) && after.keys == s.keys && |s.clients| <= |after.clients|
            && forall j | 0 <= j < |s.clients| :: ClientSucceeds(s.clients[j], after.clients[j])
  {}

  /** Every operation that is not refused keeps the vault sound: at most two keys in
      service, no fingerprint, digest or active name twice, no key enabled that is
      unverified or retired; and nothing retired or revoked comes back. */
  lemma OperationKeepsSound(s: State, op: Op)
    requires Sound(s) && DrawsFresh(s, op) && Apply(s, op).Some?
    ensures Sound(Apply(s, op).value) && Evolves(s, Apply(s, op).value)
  {
    KeysSucceedThemselves(s.keys);
    ClientsSucceedThemselves(s.clients);
    hide KeyEdit, ClientEdit, Added, Issued, DistinctKeys, DistinctClients, CountActive, AllRoutable, KeySucceeds,
         ClientSucceeds;
    if op.Add? {
      AddedIsSound(s.keys, op);
    } else if op.Issue? || op.Revoke? || op.Rotate? || op.UpdateScopes? || op.RecordUse? {
      ClientsStaySound(s, op);
    } else if !op.SetCursor? {
      KeyEditIsSound(s.keys, op);
    }
  }

  const EMPTY := State([], [], map[])

  function Next(s: State, op: Op): State {
    var next := Apply(s, op);
    if next.Some? then next.value else s
  }

  /** The vault after some operations; refused ones change nothing. */
  function After(ops: seq<Op>): State {
    if ops == [] then EMPTY else Next(After(ops[..|ops| - 1]), ops[|ops| - 1])
  }

  ghost predicate FreshRun(ops: seq<Op>) {
    forall i | 0 <= i < |ops| :: DrawsFresh(After(ops[..i]), ops[i])
  }

  /** However much later: rows stay in place with their identity, a retired key stays
      retired and disabled, a revoked client stays as it was, counts only grow. */
  predicate Later(a: State, b: State) {
    && |a.keys| <= |b.keys| && |a.clients| <= |b.clients|
    && (forall i | 0 <= i < |a.keys| ::
          && b.keys[i].id == a.keys[i].id && b.keys[i].fingerprint == a.keys[i].fingerprint
          && (a.keys[i].retired ==> b.keys[i].retired && !b.keys[i].enabled)
          && a.keys[i].requests <= b.keys[i].requests)
    && (forall i | 0 <= i < |a.clients| ::
          b.clients[i].id == a.clients[i].id && (!a.clients[i].active ==> b.clients[i] == a.clients[i]))
  }

  lemma EvolutionIsLater(a: State, b: State, c: State)
    requires Later(a, b) && Evolves(b, c)
    ensures Later(a, c)
  {
    assert forall i | 0 <= i < |b.keys| :: KeySucceeds(b.keys[i], c.keys[i]);
    assert forall i | 0 <= i < |b.clients| :: ClientSucceeds(b.clients[i], c.clients[i]);
  }

  /** Over every sequence of operations from an empty vault. */
  lemma {:induction false} RunIsSound(ops: seq<Op>, n: nat)
    requires FreshRun(ops) && n <= |ops|
    ensures Sound(After(ops)) && Later(After(ops[..n]), After(ops))
    decreases |ops|
  {
    hide Apply, Sound, Later, DrawsFresh, Evolves;
    if ops == [] {
      EmptyIsSound();
      assert ops[..n] == ops;
    } else {
      var last := |ops| - 1;
      var before := ops[..last];
      PrefixIsFresh(ops, last);
      RunIsSound(before, Min(n, last));
      assert before[..Min(n, last)] == ops[..Min(n, last)];
      assert DrawsFresh(After(ops[..last]), ops[last]);
      if Apply(After(before), ops[last]).Some? {
        OperationKeepsSound(After(before), ops[last]);
        EvolutionIsLater(After(ops[..Min(n, last)]), After(before), After(ops));
      }
      if n == |ops| {
        assert ops[..n] == ops;
        SoundIsLaterThanItself(After(ops));
      }
    }
  }

  lemma PrefixIsFresh(ops: seq<Op>, n: nat)
    requires FreshRun(ops) && n <= |ops|
    ensures FreshRun(ops[..n])
  {
    hide DrawsFresh;
    forall i | 0 <= i < n ensures DrawsFresh(After(ops[..n][..i]), ops[..n][i]) {
      assert ops[..n][..i] == ops[..i];
    }
  }

  lemma EmptyIsSound()
    ensures Sound(EMPTY) && Later(EMPTY, EMPTY)
  {}

  lemma SoundIsLaterThanItself(s: State)
    requires Sound(s)
    ensures Later(s, s)
  {}

  /** A key that lost its verification takes no traffic until a probe verified it
      again: no other operation enables it. */
  lemma UnverifiedStaysOut(s: State, op: Op, i: nat)
    requires Sound(s) && DrawsFresh(s, op) && i < |s.keys| && !s.keys[i].verified
    requires op != MarkVerified(s.keys[i].id)
    ensures var after := Next(s, op); i < |after.keys| && !after.keys[i].verified && !after.keys[i].enabled
  {
    assert Routable(s.keys[i]);
    if Apply(s, op).Some? {
      OperationKeepsSound(s, op);
      NotVerifiedByOthers(s, op, i);
      assert Routable(Next(s, op).keys[i]);
    }
  }

  lemma NotVerifiedByOthers(s: State, op: Op, i: nat)
    requires Apply(s, op).Some? && i < |s.keys| && !s.keys[i].verified && op != MarkVerified(s.keys[i].id)
    ensures i < |Apply(s, op).value.keys| && !Apply(s, op).value.keys[i].verified
  {
    hide ClientEdit, Issued;
  }

  lemma {:induction false} UnverifiedStaysOutFor(ops: seq<Op>, n: nat, i: nat)
    requires FreshRun(ops) && n <= |ops| && i < |After(ops[..n]).keys| && !After(ops[..n]).keys[i].verified
    requires forall j | n <= j < |ops| :: ops[j] != MarkVerified(After(ops[..n]).keys[i].id)
    ensures var after := After(ops);
            && i < |after.keys| && after.keys[i].id == After(ops[..n]).keys[i].id
            && !after.keys[i].verified && !after.keys[i].enabled
    decreases |ops|
  {
    hide Apply, Sound, DrawsFresh, Later;
    RunIsSound(ops, n);
    LaterKeepsId(After(ops[..n]), After(ops), i);
    if n == |ops| {
      assert ops[..n] == ops;
      SoundIsRoutable(After(ops), i);
    } else {
      var last := |ops| - 1;
      PrefixIsFresh(ops, last);
      assert ops[..last][..n] == ops[..n];
      UnverifiedStaysOutFor(ops[..last], n, i);
      RunIsSound(ops[..last], n);
      assert DrawsFresh(After(ops[..last]), ops[last]);
      UnverifiedStaysOut(After(ops[..last]), ops[last], i);
    }
  }

  lemma LaterKeepsId(a: State, b: State, i: nat)
    requires Later(a, b) && i < |a.keys|
    ensures i < |b.keys| && b.keys[i].id == a.keys[i].id
  {}

  lemma SoundIsRoutable(s: State, i: nat)
    requires Sound(s) && i < |s.keys| && !s.keys[i].verified
    ensures !s.keys[i].enabled
  {
    assert Routable(s.keys[i]);
  }

  // ---- Cooldowns ---------------------------------------------------------------------

  lemma DelayIsBounded(retryAfter: Option<int>, failures: nat)
    ensures 0 <= Delay(retryAfter, failures) <= MAX_COOLDOWN
    ensures retryAfter.None? ==> SECOND <= Delay(retryAfter, failures) <= 64 * SECOND
  {
    PowerIsMonotone(Min(failures, 6), 6);
    assert PowerOfTwo(6) == 64;
  }

  lemma {:induction false} PowerIsMonotone(a: nat, b: nat)
    requires a <= b
    ensures 1 <= PowerOfTwo(a) <= PowerOfTwo(b)
    decreases b
  {
    if a < b {
      PowerIsMonotone(a, b - 1);
    } else if a > 0 {
      PowerIsMonotone(a - 1, a - 1);
    }
  }

  function Reads(op: Op, clock: Time): Time {
    match op
    case SetEnabled(_, _, now) => now
    case RecordFailure(_, _, now) => now
    case Issue(_, _, _, _, _, now) => now
    case Revoke(_, now) => now
    case RecordUse(_, now) => now
    case _ => clock
  }

  predicate DeadlinesNear(keys: seq<Key>, clock: Time) {
    forall i | 0 <= i < |keys| :: keys[i].cooldown.Some? ==> keys[i].cooldown.value <= clock + MAX_COOLDOWN
  }

  /** While the clock does not go back, no operation puts a deadline more than five
      minutes ahead. */
  lemma DeadlinesStayNear(s: State, op: Op, clock: Time)
    requires DeadlinesNear(s.keys, clock) && clock <= Reads(op, clock) && Apply(s, op).Some?
    ensures DeadlinesNear(Apply(s, op).value.keys, Reads(op, clock))
  {
    if op.RecordFailure? {
      var k := s.keys[KeyEdit(s.keys, op).value.0];
      DelayIsBounded(op.retryAfter, SaturatingAdd(k.failures, 1));
    }
  }

  /** The clock after a run: the last time one of its operations read. */
  function Clock(ops: seq<Op>, start: Time): Time {
    if ops == [] then start else Reads(ops[|ops| - 1], Clock(ops[..|ops| - 1], start))
  }

  predicate Monotone(ops: seq<Op>, start: Time) {
    forall i | 0 <= i < |ops| :: Clock(ops[..i], start) <= Reads(ops[i], Clock(ops[..i], start))
  }

  lemma PrefixIsMonotone(ops: seq<Op>, start: Time, n: nat)
    requires Monotone(ops, start) && n <= |ops|
    ensures Monotone(ops[..n], start)
  {
    hide Clock;
    forall i | 0 <= i < n ensures Clock(ops[..n][..i], start) <= Reads(ops[..n][i], Clock(ops[..n][..i], start)) {
      assert ops[..n][..i] == ops[..i];
    }
  }

  /** Over every run from an empty vault whose clock does not go back, accepted and
      refused operations alike, every deadline is at most five minutes ahead. */
  lemma {:induction false} CooldownStaysBounded(ops: seq<Op>, start: Time)
    requires Monotone(ops, start)
    ensures DeadlinesNear(After(ops).keys, Clock(ops, start)) && start <= Clock(ops, start)
  {
    hide Apply, DeadlinesNear;
    if ops == [] {
      NoKeysNoDeadlines(start);
    } else {
      var last := |ops| - 1;
      PrefixIsMonotone(ops, start, last);
      CooldownStaysBounded(ops[..last], start);
      var s, clock := After(ops[..last]), Clock(ops[..last], start);
      assert clock <= Reads(ops[last], clock);
      if Apply(s, ops[last]).Some? {
        DeadlinesStayNear(s, ops[last], clock);
      } else {
        LaterIsStillNear(s.keys, clock, Clock(ops, start));
      }
    }
  }

  lemma NoKeysNoDeadlines(clock: Time)
    ensures DeadlinesNear(EMPTY.keys, clock)
  {}

  lemma LaterIsStillNear(keys: seq<Key>, clock: Time, later: Time)
    requires DeadlinesNear(keys, clock) && clock <= later
    ensures DeadlinesNear(keys, later)
  {}

  predicate HasDeadline(s: State, i: nat) {
    i < |s.keys| && s.keys[i].cooldown.Some?
  }

  /** The operations that lift a deadline: a probe or a success, an administrator's
      deletion or quarantine, and a failure of a key that is retired already. */
  predicate Lifts(k: Key, op: Op) {
    match op
    case MarkVerified(_) | Delete(_) | Quarantine(_) => op.id == k.id && !k.retired
    case RecordRequest(id) => id == k.id
    case RecordFailure(id, _, _) => id == k.id && k.retired
    case _ => false
  }

  /** Exactly they do; whatever else happens, the deadline stays or moves later. */
  lemma LiftedExactly(s: State, op: Op, i: nat)
    requires Sound(s) && DrawsFresh(s, op) && HasDeadline(s, i)
    ensures HasDeadline(Next(s, op), i) <==> !Lifts(s.keys[i], op)
    ensures HasDeadline(Next(s, op), i) ==> s.keys[i].cooldown.value <= Next(s, op).keys[i].cooldown.value
  {
    hide ClientEdit, Issued, DistinctClients, CountActive, AllRoutable;
    FoundByItsId(s.keys, i);
    if Apply(s, op).Some? {
      OperationKeepsSound(s, op);
      assert KeySucceeds(s.keys[i], Next(s, op).keys[i]);
    }
  }

  lemma FoundByItsId(keys: seq<Key>, i: nat)
    requires i < |keys| && DistinctKeys(keys)
    ensures FindKey(keys, keys[i].id) == Some(i)
    ensures FindLive(keys, keys[i].id) == if keys[i].retired then None else Some(i)
  {
    var at, live := FindKey(keys, keys[i].id), FindLive(keys, keys[i].id);
    assert at.Some? && keys[at.value].id == keys[i].id;
    if live.Some? {
      assert keys[live.value].id == keys[i].id;
    }
  }

  /** Until it is lifted a deadline never moves earlier, over every run: if no
      operation from the n-th on lifts it, it is still there and no earlier. */
  lemma {:induction false} CooldownNeverMovesEarlier(ops: seq<Op>, n: nat, i: nat)
    requires FreshRun(ops) && n <= |ops| && HasDeadline(After(ops[..n]), i)
    requires forall m | n <= m < |ops| && i < |After(ops[..m]).keys| :: !Lifts(After(ops[..m]).keys[i], ops[m])
    ensures HasDeadline(After(ops), i)
    ensures After(ops[..n]).keys[i].cooldown.value <= After(ops).keys[i].cooldown.value
    decreases |ops|
  {
    hide Apply, Sound, DrawsFresh, Later, Lifts;
    if n == |ops| {
      assert ops[..n] == ops;
    } else {
      var last := |ops| - 1;
      var front := ops[..last];
      PrefixIsFresh(ops, last);
      assert front[..n] == ops[..n];
      forall m | n <= m < last && i < |After(front[..m]).keys| ensures !Lifts(After(front[..m]).keys[i], front[m]) {
        assert front[..m] == ops[..m];
      }
      CooldownNeverMovesEarlier(front, n, i);
      RunIsSound(front, n);
      assert DrawsFresh(After(ops[..last]), ops[last]);
      LiftedExactly(After(front), ops[last], i);
    }
  }

  // ---- What the operations mean, row by row -----------------------------------------

  /** No key but the one with this id was touched. */
  predicate OnlyKey(s: State, t: State, id: Id) {
    && t.clients == s.clients && t.cursors == s.cursors && |t.keys| == |s.keys|
    && forall j | 0 <= j < |s.keys| && s.keys[j].id != id :: t.keys[j] == s.keys[j]
  }

  predicate OnlyClient(s: State, t: State, id: Id) {
    && t.keys == s.keys && t.cursors == s.cursors && |t.clients| == |s.clients|
    && forall j | 0 <= j < |s.clients| && s.clients[j].id != id :: t.clients[j] == s.clients[j]
  }

  predicate Full(keys: seq<Key>) {
    exists a, b | 0 <= a < b < |keys| :: !keys[a].retired && !keys[b].retired
  }

  /** The first key in service that is disabled. */
  predicate GivesWay(keys: seq<Key>, i: nat)
    requires i < |keys|
  {
    !keys[i].retired && !keys[i].enabled && forall j | 0 <= j < i :: keys[j].retired || keys[j].enabled
  }

  /** When an operation goes through. */
  predicate Allowed(s: State, op: Op) {
    match op
    case Add(name, nameOk, shapeOk, _, fingerprint, _) =>
      && nameOk && shapeOk
      && (forall k | k in s.keys :: k.fingerprint != fingerprint && (k.retired || k.name != name))
      && (Full(s.keys) ==> exists k | k in s.keys :: !k.retired && !k.enabled)
    case SetEnabled(id, enabled, now) =>
      exists k | k in s.keys ::
        k.id == id && !k.retired && (enabled ==> k.verified && (k.cooldown.Some? ==> k.cooldown.value <= now))
    case MarkVerified(id) => exists k | k in s.keys :: k.id == id && !k.retired
    case Delete(id) => exists k | k in s.keys :: k.id == id && !k.retired
    case Quarantine(id) => exists k | k in s.keys :: k.id == id && !k.retired
    case RecordRequest(id) => exists k | k in s.keys :: k.id == id
    case RecordFailure(id, _, _) => exists k | k in s.keys :: k.id == id
    case Issue(name, nameOk, scopes, _, _, _) =>
      nameOk && scopes.Some? && forall c | c in s.clients :: c.active ==> c.name != name
    case Revoke(id, _) => exists c | c in s.clients :: c.id == id
    case Rotate(id, _) => exists c | c in s.clients :: c.id == id && c.active
    case UpdateScopes(id, scopes) => scopes.Some? && exists c | c in s.clients :: c.id == id && c.active
    case RecordUse(id, _) => exists c | c in s.clients :: c.id == id && c.active
    case SetCursor(_, _) => true
  }

  /** Seconds of back-off after one, two, .. consecutive failures. */
  const BACK_OFF := [2, 4, 8, 16, 32, 64]

  /** The deadline a failure asks for: the provider's wait within five minutes, or the back-off. */
  function AskedDeadline(k: Key, retryAfter: Option<int>, now: Time): Time {
    now + match retryAfter
          case Some(wait) => Max(0, Min(wait, 300 * SECOND))
          case None => BACK_OFF[Min(k.failures, 5)] * SECOND
  }

  /** What a failure leaves of a key. */
  predicate FailureNoted(k: Key, after: Key, retryAfter: Option<int>, now: Time) {
    && after == k.(failures := after.failures, cooldown := after.cooldown)
    && after.failures == Min(k.failures + 1, U64_MAX)
    && (if k.retired then after.cooldown.None?
        else
          && after.cooldown.Some? && AskedDeadline(k, retryAfter, now) <= after.cooldown.value
          && (k.cooldown.Some? ==> k.cooldown.value <= after.cooldown.value)
          && (after.cooldown == k.cooldown || after.cooldown.value == AskedDeadline(k, retryAfter, now)))
  }

  /** What an operation that goes through does to the row with its id. */
  predicate KeyEffect(op: Op, k: Key, after: Key) {
    match op
    case SetEnabled(_, enabled, _) => after == k.(enabled := enabled)
    case MarkVerified(_) => after == k.(verified := true, cooldown := None, failures := 0)
    case Delete(_) => after == k.(retired := true, enabled := false, verified := false, cooldown := None)
    case Quarantine(_) => after == k.(enabled := false, verified := false, cooldown := None, failures := 0)
    case RecordRequest(_) => after == k.(requests := Min(k.requests + 1, U64_MAX), failures := 0, cooldown := None)
    case RecordFailure(_, retryAfter, now) => FailureNoted(k, after, retryAfter, now)
    case _ => after == k
  }

  predicate ClientEffect(op: Op, c: Client, after: Client) {
    match op
    case Revoke(_, now) => after == if c.active then c.(active := false, revoked := Some(now)) else c
    case Rotate(_, digest) => after == c.(digest := digest)
    case UpdateScopes(_, scopes) => scopes.Some? && after == c.(scopes := scopes.value)
    case RecordUse(_, now) => after == c.(requests := Min(c.requests + 1, U64_MAX), lastUsed := Some(now))
    case _ => after == c
  }

  /** What an operation that goes through does to the vault. */
  ghost predicate Effect(s: State, op: Op, t: State) {
    match op
    case Add(name, _, _, newId, fingerprint, secret) =>
      && t.clients == s.clients && t.cursors == s.cursors && |t.keys| == |s.keys| + 1
      && t.keys[|s.keys|] == Key(newId, name, fingerprint, secret, false, false, false, None, 0, 0)
      && forall j | 0 <= j < |s.keys| ::
           t.keys[j] == if Full(s.keys) && GivesWay(s.keys, j) then s.keys[j].(retired := true, enabled := false)
                        else s.keys[j]
    case Issue(name, _, scopes, newId, digest, now) =>
      && scopes.Some?
      && t == s.(clients := s.clients + [Client(newId, name, scopes.value, digest, true, 0, None, now, None)])
    case SetCursor(profile, cursor) => t == s.(cursors := s.cursors[profile := cursor])
    case Revoke(_, _) | Rotate(_, _) | UpdateScopes(_, _) | RecordUse(_, _) =>
      OnlyClient(s, t, op.id)
      && forall j | 0 <= j < |s.clients| && s.clients[j].id == op.id :: ClientEffect(op, s.clients[j], t.clients[j])
    case _ =>
      OnlyKey(s, t, op.id)
      && forall j | 0 <= j < |s.keys| && s.keys[j].id == op.id :: KeyEffect(op, s.keys[j], t.keys[j])
  }

  lemma {:induction false} FullWhenTwo(keys: seq<Key>)
    ensures CountActive(keys) >= 1 <==> exists a | 0 <= a < |keys| :: !keys[a].retired
    ensures CountActive(keys) >= 2 <==> Full(keys)
    decreases |keys|
  {
    if keys != [] {
      var n := |keys| - 1;
      FullWhenTwo(keys[..n]);
      if CountActive(keys) >= 1 && keys[n].retired {
        var a :| 0 <= a < n && !keys[..n][a].retired;
        assert !keys[a].retired;
      }
      if CountActive(keys) >= 2 && keys[n].retired {
        var a, b :| 0 <= a < b < n && !keys[..n][a].retired && !keys[..n][b].retired;
        assert !keys[a].retired && !keys[b].retired;
      } else if CountActive(keys) >= 2 {
        var a :| 0 <= a < n && !keys[..n][a].retired;
        assert !keys[a].retired && !keys[n].retired;
      }
      if Full(keys) {
        var a, b :| 0 <= a < b < |keys| && !keys[a].retired && !keys[b].retired;
        assert !keys[..n][a].retired;
        assert b < n ==> !keys[..n][b].retired;
      }
    }
  }

  lemma BackOffTable(failures: nat)
    ensures PowerOfTwo(Min(failures + 1, 6)) == BACK_OFF[Min(failures, 5)]
  {}

  predicate OnOneKey(op: Op) {
    op.SetEnabled? || op.MarkVerified? || op.Delete? || op.Quarantine? || op.RecordRequest? || op.RecordFailure?
  }

  lemma KeyEditMeans(keys: seq<Key>, op: Op, i: nat)
    requires DistinctKeys(keys) && OnOneKey(op) && i < |keys| && keys[i].id == op.id
    ensures KeyEdit(keys, op).Some? <==>
              && (keys[i].retired ==> op.RecordRequest? || op.RecordFailure?)
              && (op.SetEnabled? && op.enabled ==>
                    keys[i].verified && (keys[i].cooldown.Some? ==> keys[i].cooldown.value <= op.now))
    ensures KeyEdit(keys, op).Some? ==>
              KeyEdit(keys, op).value.0 == i && KeyEffect(op, keys[i], KeyEdit(keys, op).value.1)
  {
    hide DistinctKeys, FindKey, FindLive, PowerOfTwo;
    FoundByItsId(keys, i);
    BackOffTable(keys[i].failures);
  }

  lemma OneRowHasTheId(keys: seq<Key>, i: nat)
    requires DistinctKeys(keys) && i < |keys|
    ensures forall j | 0 <= j < |keys| && keys[j].id == keys[i].id :: j == i
  {}

  lemma MissingKey(keys: seq<Key>, op: Op)
    requires OnOneKey(op) && forall j | 0 <= j < |keys| :: keys[j].id != op.id
    ensures KeyEdit(keys, op).None?
  {}

  lemma KeyOperationMeans(s: State, op: Op)
    requires DistinctKeys(s.keys) && OnOneKey(op)
    ensures Apply(s, op).Some? <==> Allowed(s, op)
    ensures Allowed(s, op) ==> Effect(s, op, Apply(s, op).value)
  {
    hide KeyEdit, KeyEffect, DistinctKeys, Cooling;
    if i :| 0 <= i < |s.keys| && s.keys[i].id == op.id {
      KeyEditMeans(s.keys, op, i);
      OneRowHasTheId(s.keys, i);
      assert s.keys[i] in s.keys;
    } else {
      MissingKey(s.keys, op);
    }
  }

  lemma ClientOperationMeans(s: State, op: Op)
    requires DistinctClients(s.clients)
    requires op.Revoke? || op.Rotate? || op.UpdateScopes? || op.RecordUse?
    ensures Apply(s, op).Some? <==> Allowed(s, op)
    ensures Allowed(s, op) ==> Effect(s, op, Apply(s, op).value)
  {}

  lemma AddMeans(s: State, op: Op)
    requires op.Add?
    ensures Apply(s, op).Some? <==> Allowed(s, op)
    ensures Allowed(s, op) ==> Effect(s, op, Apply(s, op).value)
  {
    hide CountActive;
    FullWhenTwo(s.keys);
  }

  /** Every operation goes through exactly where it is allowed, and does what it says. */
  lemma OperationMeans(s: State, op: Op)
    requires Sound(s)
    ensures Apply(s, op).Some? <==> Allowed(s, op)
    ensures if Allowed(s, op) then Effect(s, op, Next(s, op)) else Next(s, op) == s
  {
    hide Effect, Allowed;
    match op
    case Add(_, _, _, _, _, _) => AddMeans(s, op);
    case Issue(_, _, _, _, _, _) | SetCursor(_, _) => OthersMean(s, op);
    case Revoke(_, _) | Rotate(_, _) | UpdateScopes(_, _) | RecordUse(_, _) => ClientOperationMeans(s, op);
    case _ => KeyOperationMeans(s, op);
  }

  lemma OthersMean(s: State, op: Op)
    requires op.Issue? || op.SetCursor?
    ensures Apply(s, op).Some? <==> Allowed(s, op)
    ensures Allowed(s, op) ==> Effect(s, op, Apply(s, op).value)
  {}

  /** Over every run: once revoked, a client is never authorized again. */
  lemma RevokedStaysOut(ops: seq<Op>, n: nat, i: nat)
    requires FreshRun(ops) && n < |ops| && i < |After(ops[..n]).clients|
    requires ops[n].Revoke? && ops[n].id == After(ops[..n]).clients[i].id
    ensures i < |After(ops).clients| && After(ops).clients[i].id == ops[n].id && !After(ops).clients[i].active
    ensures After(ops[..n]).clients[i].active ==> After(ops).clients[i].revoked == Some(ops[n].now)
  {
    hide Apply, Sound, DrawsFresh, DistinctClients, Next;
    PrefixIsFresh(ops, n);
    RunIsSound(ops[..n], n);
    assert ops[..n + 1][..n] == ops[..n];
    assert After(ops[..n + 1]) == Next(After(ops[..n]), ops[n]);
    OperationMeans(After(ops[..n]), ops[n]);
    assert After(ops[..n]).clients[i] in After(ops[..n]).clients;
    RunIsSound(ops, n + 1);
  }

  /** After a rotation the old token identifies nobody. */
  lemma OldTokenIsDead(s: State, op: Op, i: nat)
    requires Sound(s) && DrawsFresh(s, op) && op.Rotate? && i < |s.clients| && s.clients[i].id == op.id
    requires s.clients[i].active
    ensures forall c | c in Next(s, op).clients :: c.digest != s.clients[i].digest
    ensures Next(s, op).clients[i] == s.clients[i].(digest := op.digest)
  {
    hide Apply, Next;
    assert s.clients[i] in s.clients;
    OperationMeans(s, op);
    var t := Next(s, op);
    forall j | 0 <= j < |t.clients| ensures t.clients[j].digest != s.clients[i].digest {
      assert s.clients[j] in s.clients;
    }
  }

  // ---- The vault object -------------------------------------------------------------------

  /** A client that is revoked already. */
  predicate Repeats(s: State, op: Op) {
    && op.Revoke?
    && var i := FindClient(s.clients, op.id, false);
       i.Some? && !s.clients[i.value].active
  }

  /** The caller is told of a success: the operation is allowed, and the file is
      written unless nothing changed. */
  predicate Accepted(s: State, op: Op, written: bool) {
    Apply(s, op).Some? && (written || Repeats(s, op))
  }

  /** The vault rewrites its fields in place and then its file; `disk` decides
      whether the n-th file write succeeds. */
  class Vault {
    const disk: nat -> bool
    var writes: nat
    var keys: seq<Key>
    var clients: seq<Client>
    var cursors: map<Profile, nat>

    function Contents(): State
      reads this
    {
      State(keys, clients, cursors)
    }

    constructor (disk: nat -> bool)
      ensures Contents() == EMPTY && writes == 0 && this.disk == disk
    {
      this.disk, writes := disk, 0;
      keys, clients, cursors := [], [], map[];
    }

    method Persist() returns (ok: bool)
      modifies this`writes
      ensures ok == disk(old(writes)) && writes == old(writes) + 1
    {
      ok := disk(writes);
      writes := writes + 1;
    }

    /** `*vault = previous`. */
    method Restore(previous: State)
      modifies this`keys, this`clients, this`cursors
      ensures Contents() == previous
    {
      keys, clients, cursors := previous.keys, previous.clients, previous.cursors;
    }

    /** Where the first key with this id is, retired keys aside unless asked for. */
    method Find(id: Id, retiredToo: bool) returns (at: Option<nat>)
      ensures at == if retiredToo then FindKey(keys, id) else FindLive(keys, id)
    {
      for i := 0 to |keys|
        invariant FindKey(keys, id) == Position(keys, (k: Key) => k.id == id, i) || !retiredToo
        invariant FindLive(keys, id) == Position(keys, (k: Key) => k.id == id && !k.retired, i) || retiredToo
      {
        if keys[i].id == id && (retiredToo || !keys[i].retired) {
          return Some(i);
        }
      }
      at := None;
    }

    /** `identify_downstream`: every row is compared, and the last match is kept. */
    method IdentifyDownstream(digest: nat, wellFormed: bool) returns (found: Option<(Id, bool)>)
      ensures found.None? <==> !wellFormed || forall c | c in clients :: c.digest != digest
      ensures found.Some? ==> exists c | c in clients :: c.digest == digest && found == Some((c.id, c.active))
    {
      var selected: (Id, bool), matched := (0, false), false;
      for i := 0 to |clients|
        invariant !matched ==> forall j | 0 <= j < i :: clients[j].digest != digest
        invariant matched ==>
                    exists j | 0 <= j < i ::
                      clients[j].digest == digest && selected == (clients[j].id, clients[j].active)
      {
        if clients[i].digest == digest {
          selected, matched := (clients[i].id, clients[i].active), true;
        }
      }
      found := if wellFormed && matched then Some(selected) else None;
    }

    method CountInService() returns (n: nat)
      ensures n == CountActive(keys)
    {
      n := 0;
      for i := 0 to |keys|
        invariant n == CountActive(keys[..i])
      {
        assert keys[..i + 1][..i] == keys[..i];
        if !keys[i].retired {
          n := n + 1;
        }
      }
      assert keys[..|keys|] == keys;
    }

    /** `add`: the replaced key is retired first, the new one is appended. */
    method AddKey(op: Op) returns (ok: bool)
      requires op.Add?
      modifies this
      ensures ok == (Apply(old(Contents()), op).Some? && disk(old(writes)))
      ensures Contents() == Next(old(Contents()), op)
      ensures clients == old(clients) && cursors == old(cursors)
    {
      if !op.nameOk || !op.shapeOk {
        return false;
      }
      for i := 0 to |keys|
        invariant forall j | 0 <= j < i :: keys[j].fingerprint != op.fingerprint
      {
        if keys[i].fingerprint == op.fingerprint {
          return false;
        }
      }
      for i := 0 to |keys|
        invariant forall j | 0 <= j < i :: keys[j].retired || keys[j].name != op.name
      {
        if !keys[i].retired && keys[i].name == op.name {
          return false;
        }
      }
      var active := CountInService();
      var replaced :=
        if active >= MAX_UPSTREAM_KEYS then Position(keys, (k: Key) => !k.retired && !k.enabled, 0) else None;
      if active >= MAX_UPSTREAM_KEYS && replaced.None? {
        return false;
      }
      if replaced.Some? {
        keys := keys[replaced.value := keys[replaced.value].(retired := true, enabled := false)];
      }
      keys := keys + [Key(op.newId, op.name, op.fingerprint, op.secret, false, false, false, None, 0, 0)];
      ok := Persist();
    }

    method SetEnabled(id: Id, enabled: bool, now: Time) returns (ok: bool)
      modifies this
      ensures var op := Op.SetEnabled(id, enabled, now);
              ok == (Apply(old(Contents()), op).Some? && disk(old(writes))) && Contents() == Next(old(Contents()), op)
    {
      var i := Find(id, false);
      if i.None? || (enabled && !keys[i.value].verified) || (enabled && Cooling(keys[i.value], now)) {
        return false;
      }
      keys := keys[i.value := keys[i.value].(enabled := enabled)];
      ok := Persist();
    }

    method RecordFailure(id: Id, retryAfter: Option<int>, now: Time) returns (ok: bool)
      modifies this
      ensures var op := Op.RecordFailure(id, retryAfter, now);
              ok == (Apply(old(Contents()), op).Some? && disk(old(writes))) && Contents() == Next(old(Contents()), op)
    {
      var i := Find(id, true);
      if i.None? {
        return false;
      }
      var key := keys[i.value];
      key := key.(failures := SaturatingAdd(key.failures, 1));
      if key.retired {
        keys := keys[i.value := key.(cooldown := None)];
        ok := Persist();
        return;
      }
      var delay := Delay(retryAfter, key.failures);
      var until := now + delay;
      var deadline := if key.cooldown.Some? then Max(key.cooldown.value, until) else until;
      keys := keys[i.value := key.(cooldown := Some(deadline))];
      ok := Persist();
    }

    method RecordRequest(id: Id) returns (ok: bool)
      modifies this
      ensures var op := Op.RecordRequest(id);
              ok == (Apply(old(Contents()), op).Some? && disk(old(writes))) && Contents() == Next(old(Contents()), op)
    {
      var i := Find(id, true);
      if i.None? {
        return false;
      }
      var key := keys[i.value];
      keys := keys[i.value := key.(requests := SaturatingAdd(key.requests, 1), failures := 0, cooldown := None)];
      ok := Persist();
    }

    /** The operations that only rewrite one row's flags. */
    method Edit(op: Op) returns (ok: bool)
      requires op.MarkVerified? || op.Delete? || op.Quarantine?
      modifies this
      ensures ok == (Apply(old(Contents()), op).Some? && disk(old(writes))) && Contents() == Next(old(Contents()), op)
    {
      var i := Find(op.id, false);
      if i.None? {
        return false;
      }
      var key := keys[i.value];
      if op.MarkVerified? {
        key := key.(verified := true, cooldown := None, failures := 0);
      } else if op.Delete? {
        key := key.(retired := true, enabled := false, verified := false, cooldown := None);
      } else {
        key := key.(enabled := false, verified := false, cooldown := None, failures := 0);
      }
      keys := keys[i.value := key];
      ok := Persist();
    }

    /** The downstream operations and the cursor. A repeated revocation changes
        nothing and is not written again. */
    method EditClients(op: Op) returns (ok: bool)
      requires op.Issue? || op.Revoke? || op.Rotate? || op.UpdateScopes? || op.RecordUse? || op.SetCursor?
      modifies this
      ensures ok <==> Accepted(old(Contents()), op, disk(old(writes)))
      ensures Contents() == Next(old(Contents()), op)
    {
      var before := Contents();
      if op.SetCursor? {
        cursors := cursors[op.profile := op.cursor];
      } else if op.Issue? {
        var issued := Issued(clients, op);
        if issued.None? {
          return false;
        }
        clients := issued.value;
      } else {
        var edit := ClientEdit(clients, op);
        if edit.None? {
          return false;
        }
        if op.Revoke? && !clients[edit.value.0].active {
          assert clients[edit.value.0 := edit.value.1] == clients;
          return true;
        }
        clients := clients[edit.value.0 := edit.value.1];
      }
      ok := Persist();
    }

    /** Any operation: it goes through exactly where it is allowed, and then does what it
        says; the caller is told of a success if the file was written as well, or nothing
        had to be. */
    method Run(op: Op) returns (ok: bool)
      modifies this
      ensures ok <==> Accepted(old(Contents()), op, disk(old(writes)))
      ensures Contents() == Next(old(Contents()), op)
      ensures Sound(old(Contents())) ==>
                && (ok <==> Allowed(old(Contents()), op) && (disk(old(writes)) || Repeats(old(Contents()), op)))
                && (if Allowed(old(Contents()), op) then Effect(old(Contents()), op, Contents())
                    else Contents() == old(Contents()))
    {
      hide Sound, Allowed, Effect;
      if Sound(Contents()) {
        OperationMeans(Contents(), op);
      }
      match op
      case Add(_, _, _, _, _, _) => ok := AddKey(op);
      case SetEnabled(id, enabled, now) => ok := SetEnabled(id, enabled, now);
      case RecordFailure(id, retryAfter, now) => ok := RecordFailure(id, retryAfter, now);
      case RecordRequest(id) => ok := RecordRequest(id);
      case MarkVerified(_) | Delete(_) | Quarantine(_) => ok := Edit(op);
      case Issue(_, _, _, _, _, _) | Revoke(_, _) | Rotate(_, _) | UpdateScopes(_, _) | RecordUse(_, _)
         | SetCursor(_, _) =>
        ok := EditClients(op);
    }
  }
}
