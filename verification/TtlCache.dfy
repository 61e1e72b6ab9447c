/**
 The in-memory cache with a time to live and a size limit (src/services/cache.ts). The keys
 are kept in the insertion order of the store, which eviction follows; setting a present key
 keeps its place. The clock is a parameter of each operation and never goes back.
 */
module TtlCache {
  import opened Common

  type Value = string

  datatype Entry = Entry(value: Value, expiresAt: real)

  datatype Stats = Stats(hits: nat, misses: nat, sets: nat, deletes: nat, evictions: nat, size: nat)

  datatype Cache = Cache(maxEntries: int, keys: seq<string>, entries: map<string, Entry>, stats: Stats)

  /** A number of milliseconds, which JavaScript callers may also pass as NaN or infinite. */
  datatype Ttl = Finite(ms: real) | NotFinite

  predicate Accepts(ttl: Ttl) {
    ttl.Finite? && ttl.ms > 0.0
  }

  function Empty(maxEntries: Option<int>): Cache {
    Cache(if maxEntries.Some? then maxEntries.value else 5000, [], map[], Stats(0, 0, 0, 0, 0, 0))
  }

  predicate Expired(e: Entry, now: real) {
    now >= e.expiresAt
  }

  function Without(keys: seq<string>, key: string): seq<string> {
    if keys == [] then []
    else if keys[0] == key then keys[1..] else [keys[0]] + Without(keys[1..], key)
  }

  function Remove(c: Cache, key: string): Cache {
    c.(keys := Without(c.keys, key), entries := c.entries - {key})
  }

  function SyncSize(c: Cache): Cache {
    c.(stats := c.stats.(size := |c.keys|))
  }

  function OnGet(c: Cache, now: real, key: string): (Cache, Option<Value>) {
    var s := c.stats;
    if key !in c.entries then (c.(stats := s.(misses := s.misses + 1)), None)
    else if Expired(c.entries[key], now) then
      (SyncSize(Remove(c, key).(stats := s.(misses := s.misses + 1, evictions := s.evictions + 1))), None)
    else (c.(stats := s.(hits := s.hits + 1)), Some(c.entries[key].value))
  }

  predicate MustEvict(c: Cache, key: string) {
    |c.keys| >= c.maxEntries && key !in c.entries
  }

  /** Removes the oldest entry, unless there is none or its key is the empty string. */
  function EvictOneOldest(c: Cache): Cache {
    if c.keys == [] || c.keys[0] == "" then c
    else SyncSize(Remove(c, c.keys[0]).(stats := c.stats.(evictions := c.stats.evictions + 1)))
  }

  function Store(c: Cache, key: string, e: Entry): Cache {
    c.(keys := if key in c.entries then c.keys else c.keys + [key], entries := c.entries[key := e])
  }

  function OnSet(c: Cache, now: real, key: string, value: Value, ttl: Ttl): Cache {
    if !Accepts(ttl) then c
    else
      var room := if MustEvict(c, key) then EvictOneOldest(c) else c;
      var stored := Store(room, key, Entry(value, now + ttl.ms));
      SyncSize(stored.(stats := stored.stats.(sets := stored.stats.sets + 1)))
  }

  function OnDelete(c: Cache, key: string): Cache {
    if key !in c.entries then c
    else SyncSize(Remove(c, key).(stats := c.stats.(deletes := c.stats.deletes + 1)))
  }

  function OnClear(c: Cache): Cache {
    SyncSize(c.(keys := [], entries := map[]))
  }

  /** The sweep's walk over the keys it started with. */
  function SweepOver(c: Cache, now: real, todo: seq<string>): Cache
    decreases |todo|
  {
    if todo == [] then c
    else
      var next := if todo[0] in c.entries && Expired(c.entries[todo[0]], now) then Remove(c, todo[0]) else c;
      SweepOver(next, now, todo[1..])
  }

  function Sweep(c: Cache, now: real): Cache {
    var swept := SweepOver(c, now, c.keys);
    if |swept.keys| < |c.keys| then
      SyncSize(swept.(stats := c.stats.(evictions := c.stats.evictions + |c.keys| - |swept.keys|)))
    else swept
  }

  // ---------- the store is a map with an order ----------

  ghost predicate Distinct(keys: seq<string>) {
    forall i, j :: 0 <= i < j < |keys| ==> keys[i] != keys[j]
  }

  /** The keys are those of the entries, each once. */
  ghost predicate Ordered(c: Cache) {
    && Distinct(c.keys)
    && (forall k :: k in c.keys <==> k in c.entries)
  }

  ghost predicate Valid(c: Cache) {
    && Ordered(c)
    && c.stats.size == |c.keys|
  }

  lemma {:induction false} WithoutIs(keys: seq<string>, key: string)
    requires Distinct(keys)
    ensures Distinct(Without(keys, key))
    ensures forall k :: k in Without(keys, key) <==> k in keys && k != key
    ensures |Without(keys, key)| == |keys| - (if key in keys then 1 else 0)
  {
    if keys != [] {
      assert keys == [keys[0]] + keys[1..];
      var rest := Without(keys[1..], key);
      WithoutIs(keys[1..], key);
      forall j | 0 <= j < |rest|
        ensures rest[j] != keys[0]
      {
        assert rest[j] in keys[1..];
      }
    }
  }

  lemma {:induction false} RemoveKeepsOrder(c: Cache, key: string)
    requires Ordered(c)
    ensures var d := Remove(c, key);
      && Ordered(d)
      && |d.keys| == |c.keys| - (if key in c.entries then 1 else 0)
  {
    WithoutIs(c.keys, key);
  }

  lemma {:induction false} SweepOverIs(c: Cache, now: real, todo: seq<string>)
    requires Ordered(c)
    ensures var d := SweepOver(c, now, todo);
      && Ordered(d)
      && |d.keys| <= |c.keys| && d.maxEntries == c.maxEntries && d.stats == c.stats
      && (forall k :: k in d.entries <==> k in c.entries && !(k in todo && Expired(c.entries[k], now)))
      && (forall k :: k in d.entries ==> d.entries[k] == c.entries[k])
      && (|d.keys| == |c.keys| ==> d == c)
    decreases |todo|
  {
    if todo != [] {
      assert todo == [todo[0]] + todo[1..];
      var next := if todo[0] in c.entries && Expired(c.entries[todo[0]], now) then Remove(c, todo[0]) else c;
      RemoveKeepsOrder(c, todo[0]);
      SweepOverIs(next, now, todo[1..]);
    }
  }

  /** A sweep removes exactly the expired entries, and counts them. */
  lemma {:induction false} SweepRemovesExpired(c: Cache, now: real)
    requires Valid(c)
    ensures var d := Sweep(c, now);
      && Valid(d)
      && (forall k :: k in d.entries <==> k in c.entries && !Expired(c.entries[k], now))
      && (forall k :: k in d.entries ==> d.entries[k] == c.entries[k])
      && d.stats == c.stats.(evictions := d.stats.evictions, size := |d.keys|)
      && d.stats.evictions + |d.keys| == c.stats.evictions + |c.keys|
  {
    SweepOverIs(c, now, c.keys);
  }

  // ---------- runs ----------

  datatype Step =
    | GetKey(key: string)
    | SetKey(key: string, value: Value, ttl: Ttl)
    | DeleteKey(key: string)
    | ClearAll
    | SweepNow
    | Tick(to: real)

  /** A run of the cache beside the unbounded map it stands for. `lost` holds the keys that
      eviction for space has taken since they were last set. */
  datatype State = State(
    now: real,
    cache: Cache,
    shadow: map<string, Entry>,
    lost: set<string>,
    gets: nat,
    added: nat,
    cleared: nat)

  function Init(now: real, maxEntries: Option<int>): State {
    State(now, Empty(maxEntries), map[], {}, 0, 0, 0)
  }

  function Evicted(c: Cache, key: string): set<string> {
    if MustEvict(c, key) && c.keys != [] && c.keys[0] != "" then {c.keys[0]} else {}
  }

  function Next(s: State, step: Step): State {
    match step
    case GetKey(key) => s.(cache := OnGet(s.cache, s.now, key).0, gets := s.gets + 1)
    case SetKey(key, value, ttl) =>
      if !Accepts(ttl) then s
      else s.(cache := OnSet(s.cache, s.now, key, value, ttl),
              shadow := s.shadow[key := Entry(value, s.now + ttl.ms)],
              lost := s.lost + Evicted(s.cache, key) - {key},
              added := s.added + if key in s.cache.entries then 0 else 1)
    case DeleteKey(key) => s.(cache := OnDelete(s.cache, key), shadow := s.shadow - {key}, lost := s.lost - {key})
    case ClearAll => s.(cache := OnClear(s.cache), shadow := map[], lost := {}, cleared := s.cleared + |s.cache.keys|)
    case SweepNow => s.(cache := Sweep(s.cache, s.now))
    case Tick(to) => if to < s.now then s else s.(now := to)
  }

  function Exec(s: State, steps: seq<Step>): State
    decreases |steps|
  {
    if steps == [] then s else Exec(Next(s, steps[0]), steps[1..])
  }

  /** What a map with expiry times and no limit answers. */
  function MapAnswer(m: map<string, Entry>, now: real, key: string): Option<Value> {
    if key in m && now < m[key].expiresAt then Some(m[key].value) else None
  }

  ghost predicate Agree(entries: map<string, Entry>, shadow: map<string, Entry>, lost: set<string>, now: real) {
    && (forall k :: k in entries ==> k in shadow && entries[k] == shadow[k] && k !in lost)
    && (forall k :: k in shadow && k !in entries ==> k in lost || Expired(shadow[k], now))
  }

  ghost predicate Agrees(s: State) {
    Agree(s.cache.entries, s.shadow, s.lost, s.now)
  }

  /** Every access is a hit or a miss; every entry that came in is present, or was deleted,
      evicted or cleared. */
  ghost predicate Accounted(s: State) {
    var st := s.cache.stats;
    && st.hits + st.misses == s.gets
    && s.added == |s.cache.keys| + st.deletes + st.evictions + s.cleared
  }

  ghost predicate Inv(s: State) {
    Valid(s.cache) && Agrees(s) && Accounted(s)
  }

  lemma {:induction false} GetKeepsInv(s: State, key: string)
    requires Inv(s)
    ensures Inv(Next(s, GetKey(key)))
  {
    RemoveKeepsOrder(s.cache, key);
  }

  lemma {:induction false} DeleteKeepsInv(s: State, key: string)
    requires Inv(s)
    ensures Inv(Next(s, DeleteKey(key)))
  {
    RemoveKeepsOrder(s.cache, key);
  }

  lemma {:induction false} SetIs(c: Cache, now: real, key: string, value: Value, ttl: Ttl)
    requires Valid(c) && Accepts(ttl)
    ensures var d := OnSet(c, now, key, value, ttl);
      && Valid(d) && d.maxEntries == c.maxEntries
      && d.entries == (c.entries - Evicted(c, key))[key := Entry(value, now + ttl.ms)]
      && |d.keys| == |c.keys| + (if key in c.entries then 0 else 1) - |Evicted(c, key)|
      && d.stats.hits == c.stats.hits && d.stats.misses == c.stats.misses && d.stats.deletes == c.stats.deletes
      && d.stats.evictions == c.stats.evictions + |Evicted(c, key)|
  {
    var room := if MustEvict(c, key) then EvictOneOldest(c) else c;
    if c.keys != [] {
      assert c.keys[0] in c.entries;
      RemoveKeepsOrder(c, c.keys[0]);
    }
    assert room.entries == c.entries - Evicted(c, key);
  }

  lemma {:induction false} SetKeepsAgreement(s: State, key: string, value: Value, ttl: Ttl)
    requires Valid(s.cache) && Agrees(s) && Accepts(ttl)
    ensures Agrees(Next(s, SetKey(key, value, ttl)))
  {
    SetIs(s.cache, s.now, key, value, ttl);
    EvictedIs(s.cache, key);
    hide OnSet, Evicted, Valid, Agree;
    SettingAgrees(s.cache.entries, s.shadow, s.lost, s.now, key, Entry(value, s.now + ttl.ms), Evicted(s.cache, key));
  }

  lemma {:induction false} SettingAgrees(entries: map<string, Entry>, shadow: map<string, Entry>, lost: set<string>,
                                         now: real, key: string, e: Entry, evicted: set<string>)
    requires Agree(entries, shadow, lost, now) && key !in evicted
    ensures Agree((entries - evicted)[key := e], shadow[key := e], lost + evicted - {key}, now)
  {}

  lemma {:induction false} EvictedIs(c: Cache, key: string)
    requires Valid(c)
    ensures key !in Evicted(c, key) && forall k :: k in Evicted(c, key) ==> k in c.entries
  {
    if c.keys != [] {
      assert c.keys[0] in c.entries;
    }
  }

  lemma {:induction false} SetKeepsCounts(s: State, key: string, value: Value, ttl: Ttl)
    requires Valid(s.cache) && Accounted(s) && Accepts(ttl)
    ensures Accounted(Next(s, SetKey(key, value, ttl))) && Valid(Next(s, SetKey(key, value, ttl)).cache)
  {
    SetIs(s.cache, s.now, key, value, ttl);
    hide OnSet, Evicted, Valid;
  }

  lemma {:induction false} SetKeepsInv(s: State, key: string, value: Value, ttl: Ttl)
    requires Inv(s)
    ensures Inv(Next(s, SetKey(key, value, ttl)))
  {
    if Accepts(ttl) {
      SetKeepsAgreement(s, key, value, ttl);
      SetKeepsCounts(s, key, value, ttl);
      hide Next, Valid, Agrees, Accounted;
    }
  }

  lemma {:induction false} SweepKeepsInv(s: State)
    requires Inv(s)
    ensures Inv(Next(s, SweepNow))
  {
    SweepRemovesExpired(s.cache, s.now);
    hide Sweep, Valid;
  }

  lemma {:induction false} StepKeepsInv(s: State, step: Step)
    requires Inv(s)
    ensures Inv(Next(s, step))
  {
    match step
    case GetKey(key) => GetKeepsInv(s, key);
    case SetKey(key, value, ttl) => SetKeepsInv(s, key, value, ttl);
    case DeleteKey(key) => DeleteKeepsInv(s, key);
    case ClearAll =>
    case SweepNow => SweepKeepsInv(s);
    case Tick(to) =>
  }

  lemma {:induction false} RunKeepsInv(s: State, steps: seq<Step>)
    requires Inv(s)
    ensures Inv(Exec(s, steps))
    decreases |steps|
  {
    if steps != [] {
      StepKeepsInv(s, steps[0]);
      RunKeepsInv(Next(s, steps[0]), steps[1..]);
    }
  }

  // ---------- results over all runs ----------

  /** In every run a read answers what the unbounded map would answer, except that it misses a
      key which eviction took for space since it was last set. */
  lemma {:induction false} GetAnswersAsMap(now: real, maxEntries: Option<int>, steps: seq<Step>, key: string)
    ensures var s := Exec(Init(now, maxEntries), steps);
      OnGet(s.cache, s.now, key).1 == if key in s.lost then None else MapAnswer(s.shadow, s.now, key)
  {
    RunKeepsInv(Init(now, maxEntries), steps);
  }

  /** A sweep never changes what any key answers, now or later. */
  lemma {:induction false} SweepChangesNoAnswer(c: Cache, now: real, later: real, key: string)
    requires Valid(c) && now <= later
    ensures OnGet(Sweep(c, now), later, key).1 == OnGet(c, later, key).1
  {
    SweepRemovesExpired(c, now);
  }

  lemma {:induction false} CountsAddUp(now: real, maxEntries: Option<int>, steps: seq<Step>)
    ensures var s := Exec(Init(now, maxEntries), steps);
      var st := s.cache.stats;
      && st.size == |s.cache.keys|
      && st.hits + st.misses == s.gets
      && s.added == st.size + st.deletes + st.evictions + s.cleared
  {
    RunKeepsInv(Init(now, maxEntries), steps);
  }

  // ---------- the size limit ----------

  function Limit(c: Cache): int {
    Max(1, c.maxEntries)
  }

  /** A set leaves the cache above its limit exactly when it was full, the key is new, and the
      oldest key is the empty string. (A limit below one holds one entry.) */
  lemma {:induction false} SetExceedsLimitIff(c: Cache, now: real, key: string, value: Value, ttl: Ttl)
    requires Valid(c) && |c.keys| <= Limit(c)
    ensures |OnSet(c, now, key, value, ttl).keys| > Limit(c) <==>
      Accepts(ttl) && |c.keys| == Limit(c) && key !in c.entries && c.keys[0] == ""
  {
    if Accepts(ttl) {
      SetIs(c, now, key, value, ttl);
      hide OnSet;
    }
  }

  predicate SetsNamedKeys(steps: seq<Step>) {
    forall i :: 0 <= i < |steps| && steps[i].SetKey? ==> steps[i].key != ""
  }

  ghost predicate WithinLimit(s: State) {
    |s.cache.keys| <= Limit(s.cache) && "" !in s.cache.keys
  }

  lemma {:induction false} StepKeepsLimit(s: State, step: Step)
    requires Inv(s) && WithinLimit(s) && (step.SetKey? ==> step.key != "")
    ensures WithinLimit(Next(s, step)) && Next(s, step).cache.maxEntries == s.cache.maxEntries
  {
    match step
    case GetKey(key) => RemoveKeepsOrder(s.cache, key);
    case SetKey(key, value, ttl) =>
      SetExceedsLimitIff(s.cache, s.now, key, value, ttl);
      if Accepts(ttl) {
        SetIs(s.cache, s.now, key, value, ttl);
        hide OnSet;
      }
    case DeleteKey(key) => RemoveKeepsOrder(s.cache, key);
    case ClearAll =>
    case SweepNow => SweepOverIs(s.cache, s.now, s.cache.keys);
    case Tick(to) =>
  }

  /** While no empty key is ever set, every run stays within the limit. */
  lemma {:induction false} SizeBounded(s: State, steps: seq<Step>)
    requires Inv(s) && WithinLimit(s) && SetsNamedKeys(steps)
    ensures |Exec(s, steps).cache.keys| <= Max(1, s.cache.maxEntries)
    decreases |steps|
  {
    if steps != [] {
      assert steps[0].SetKey? ==> steps[0].key != "";
      StepKeepsLimit(s, steps[0]);
      StepKeepsInv(s, steps[0]);
      assert SetsNamedKeys(steps[1..]) by {
        forall i | 0 <= i < |steps[1..]| && steps[1..][i].SetKey?
          ensures steps[1..][i].key != ""
        {
          assert steps[1..][i] == steps[i + 1];
        }
      }
      SizeBounded(Next(s, steps[0]), steps[1..]);
    }
  }

  /** Only accepted sets. */
  predicate SetsOnly(steps: seq<Step>) {
    forall i :: 0 <= i < |steps| ==> steps[i].SetKey? && Accepts(steps[i].ttl)
  }

  ghost predicate EmptyKeyOldest(c: Cache) {
    c.keys != [] && c.keys[0] == ""
  }

  lemma {:induction false} SetKeepsAll(c: Cache, now: real, key: string, value: Value, ttl: Ttl)
    requires Valid(c) && EmptyKeyOldest(c) && Accepts(ttl)
    ensures var d := OnSet(c, now, key, value, ttl);
      && d.keys == (if key in c.keys then c.keys else c.keys + [key])
      && d.stats.evictions == c.stats.evictions && d.maxEntries == c.maxEntries
  {}

  /** The keys after a run of sets: the new ones are appended, each once. */
  function KeysAfter(keys: seq<string>, steps: seq<Step>): seq<string>
    requires SetsOnly(steps)
    decreases |steps|
  {
    if steps == [] then keys
    else
      assert forall i :: 0 <= i < |steps[1..]| ==> steps[1..][i] == steps[i + 1];
      var key := steps[0].key;
      KeysAfter(if key in keys then keys else keys + [key], steps[1..])
  }

  /** An oldest key that is empty is never evicted, and then nothing is: whatever the limit and
      the size, any run of sets keeps every key there was and adds every new one. */
  lemma {:induction false} EmptyKeyDisablesLimit(s: State, steps: seq<Step>)
    requires Inv(s) && EmptyKeyOldest(s.cache) && SetsOnly(steps)
    ensures var c := Exec(s, steps).cache;
      c.keys == KeysAfter(s.cache.keys, steps) && c.stats.evictions == s.cache.stats.evictions
    decreases |steps|
  {
    if steps != [] {
      var step := steps[0];
      assert forall i :: 0 <= i < |steps[1..]| ==> steps[1..][i] == steps[i + 1];
      StepKeepsInv(s, step);
      SetKeepsAll(s.cache, s.now, step.key, step.value, step.ttl);
      hide OnSet, Inv, Valid;
      EmptyKeyDisablesLimit(Next(s, step), steps[1..]);
    }
  }

  /** One way into that state: the empty key is the first key set. */
  lemma {:induction false} EmptyKeyFirst(now: real, maxEntries: Option<int>, value: Value, ttl: Ttl, steps: seq<Step>)
    requires Accepts(ttl) && SetsOnly(steps)
    ensures Exec(Init(now, maxEntries), [SetKey("", value, ttl)] + steps).cache.keys == KeysAfter([""], steps)
  {
    var s := Next(Init(now, maxEntries), SetKey("", value, ttl));
    assert ([SetKey("", value, ttl)] + steps)[1..] == steps;
    SetKeepsInv(Init(now, maxEntries), "", value, ttl);
    assert s.cache.keys == [""];
    EmptyKeyDisablesLimit(s, steps);
  }

  /** So every key that was present or set is present afterwards. */
  lemma {:induction false} KeysAfterHas(keys: seq<string>, steps: seq<Step>)
    requires SetsOnly(steps)
    ensures keys <= KeysAfter(keys, steps)
    ensures forall k :: k in KeysAfter(keys, steps) <==> k in keys || exists i :: 0 <= i < |steps| && steps[i].key == k
    decreases |steps|
  {
    if steps != [] {
      var more := if steps[0].key in keys then keys else keys + [steps[0].key];
      assert forall i :: 0 <= i < |steps[1..]| ==> steps[1..][i] == steps[i + 1];
      KeysAfterHas(more, steps[1..]);
      forall k
        ensures k in KeysAfter(keys, steps) <==> k in keys || exists i :: 0 <= i < |steps| && steps[i].key == k
      {
        if i :| 0 <= i < |steps| && steps[i].key == k {
          assert i > 0 ==> steps[1..][i - 1].key == k;
        }
      }
    }
  }

  // ---------- what each operation does to the keys, the entries and the counters ----------

  lemma {:induction false} WithoutAt(keys: seq<string>, i: nat)
    requires Distinct(keys) && i < |keys|
    ensures Without(keys, keys[i]) == keys[..i] + keys[i + 1..]
  {
    if i > 0 {
      WithoutAt(keys[1..], i - 1);
      assert keys[1..][..i - 1] == keys[1..i];
      assert keys[..i] == [keys[0]] + keys[1..i];
      assert keys[1..][i..] == keys[i + 1..];
    }
  }

  /** `d` lost the key and nothing else; the other keys keep their order. */
  ghost predicate OnlyLost(c: Cache, key: string, d: Cache) {
    && d.maxEntries == c.maxEntries
    && d.entries == c.entries - {key}
    && exists i :: 0 <= i < |c.keys| && c.keys[i] == key && d.keys == c.keys[..i] + c.keys[i + 1..]
  }

  lemma {:induction false} RemoveOnlyLoses(c: Cache, key: string)
    requires Ordered(c) && key in c.entries
    ensures OnlyLost(c, key, Remove(c, key)) && |Remove(c, key).keys| == |c.keys| - 1
    ensures Ordered(Remove(c, key))
  {
    RemoveKeepsOrder(c, key);
    var i :| 0 <= i < |c.keys| && c.keys[i] == key;
    WithoutAt(c.keys, i);
  }

  /** The keys whose time is not over, in order. */
  function Living(keys: seq<string>, entries: map<string, Entry>, now: real): (r: seq<string>)
    ensures |r| <= |keys|
  {
    if keys == [] then []
    else if keys[0] in entries && now < entries[keys[0]].expiresAt then [keys[0]] + Living(keys[1..], entries, now)
    else Living(keys[1..], entries, now)
  }

  lemma {:induction false} LivingSame(keys: seq<string>, key: string, entries: map<string, Entry>, now: real)
    requires key !in keys
    ensures Living(keys, entries - {key}, now) == Living(keys, entries, now)
  {
    if keys != [] {
      LivingSame(keys[1..], key, entries, now);
    }
  }

  lemma {:induction false} SweepLeavesLiving(c: Cache, now: real, kept: seq<string>, todo: seq<string>)
    requires Ordered(c) && c.keys == kept + todo
    ensures SweepOver(c, now, todo).keys == kept + Living(todo, c.entries, now)
    decreases |todo|
  {
    if todo == [] {
      assert kept + [] == kept;
    } else {
      hide SweepOver, Living, Ordered, Remove;
      SweepFirst(c, now, kept, todo);
      if Expired(c.entries[todo[0]], now) {
        ForgetNext(c, kept, todo);
        SweepLeavesLiving(Remove(c, todo[0]), now, kept, todo[1..]);
      } else {
        assert c.keys == kept + [todo[0]] + todo[1..];
        SweepLeavesLiving(c, now, kept + [todo[0]], todo[1..]);
        assert kept + ([todo[0]] + Living(todo[1..], c.entries, now))
            == kept + [todo[0]] + Living(todo[1..], c.entries, now);
      }
    }
  }

  lemma {:induction false} SweepFirst(c: Cache, now: real, kept: seq<string>, todo: seq<string>)
    requires Ordered(c) && c.keys == kept + todo && todo != []
    ensures todo[0] in c.entries
    ensures Expired(c.entries[todo[0]], now) ==>
      && SweepOver(c, now, todo) == SweepOver(Remove(c, todo[0]), now, todo[1..])
      && Living(todo, c.entries, now) == Living(todo[1..], Remove(c, todo[0]).entries, now)
    ensures !Expired(c.entries[todo[0]], now) ==>
      && SweepOver(c, now, todo) == SweepOver(c, now, todo[1..])
      && Living(todo, c.entries, now) == [todo[0]] + Living(todo[1..], c.entries, now)
  {
    assert c.keys[|kept|] == todo[0];
    ForgetNext(c, kept, todo);
    LivingSame(todo[1..], todo[0], c.entries, now);
    hide Distinct, Without;
  }

  lemma {:induction false} ForgetNext(c: Cache, kept: seq<string>, todo: seq<string>)
    requires Ordered(c) && c.keys == kept + todo && todo != []
    ensures var d := Remove(c, todo[0]);
      Ordered(d) && d.keys == kept + todo[1..] && todo[0] !in todo[1..]
  {
    NotAgain(kept, todo);
    WithoutAt(c.keys, |kept|);
    RemoveKeepsOrder(c, todo[0]);
    hide Ordered, Distinct, Without;
    assert c.keys[..|kept|] == kept && c.keys[|kept| + 1..] == todo[1..];
  }

  lemma {:induction false} NotAgain(kept: seq<string>, todo: seq<string>)
    requires Distinct(kept + todo) && todo != []
    ensures todo[0] !in todo[1..]
  {
    forall j | 1 <= j < |todo|
      ensures todo[j] != todo[0]
    {
      assert (kept + todo)[|kept|] == todo[0] && (kept + todo)[|kept| + j] == todo[j];
    }
  }

  /** A read of a key misses when it is absent or its time is over, and then takes it out. */
  lemma {:induction false} GetLaw(c: Cache, now: real, key: string)
    requires Valid(c)
    ensures var (d, r), st := OnGet(c, now, key), c.stats;
      if key in c.entries && now < c.entries[key].expiresAt then
        r == Some(c.entries[key].value) && d == c.(stats := st.(hits := st.hits + 1))
      else if key in c.entries then
        && r == None && OnlyLost(c, key, d) && Valid(d)
        && d.stats == st.(misses := st.misses + 1, evictions := st.evictions + 1, size := |d.keys|)
      else r == None && d == c.(stats := st.(misses := st.misses + 1))
  {
    if key in c.entries {
      RemoveOnlyLoses(c, key);
      hide Ordered, Without;
    }
  }

  /** A set that is accepted makes room exactly when the key is new and the cache is full:
      then the oldest key goes, unless it is empty or there is none. */
  ghost predicate TakesOldest(c: Cache, key: string) {
    key !in c.keys && |c.keys| >= c.maxEntries && c.keys != [] && c.keys[0] != ""
  }

  /** A set is accepted when its time to live is finite and positive. It then stores the value
      until that time is over; a present key keeps its place, a new one becomes the newest. */
  lemma {:induction false} SetLaw(c: Cache, now: real, key: string, value: Value, ttl: Ttl)
    requires Valid(c)
    ensures var d, takes := OnSet(c, now, key, value, ttl), TakesOldest(c, key);
      if ttl.NotFinite? || ttl.ms <= 0.0 then d == c
      else
        && Valid(d) && d.maxEntries == c.maxEntries
        && d.keys == (if key in c.keys then c.keys else (if takes then c.keys[1..] else c.keys) + [key])
        && d.entries == (if takes then c.entries - {c.keys[0]} else c.entries)[key := Entry(value, now + ttl.ms)]
        && d.stats == c.stats.(sets := c.stats.sets + 1, size := |d.keys|,
                               evictions := c.stats.evictions + if takes then 1 else 0)
  {
    if Accepts(ttl) {
      SetIs(c, now, key, value, ttl);
    }
  }

  lemma {:induction false} DeleteLaw(c: Cache, key: string)
    requires Valid(c)
    ensures var d, st := OnDelete(c, key), c.stats;
      if key in c.entries then
        && OnlyLost(c, key, d) && Valid(d)
        && d.stats == st.(deletes := st.deletes + 1, size := |d.keys|)
      else d == c
  {
    if key in c.entries {
      RemoveOnlyLoses(c, key);
      hide Ordered, Without;
    }
  }

  /** A sweep takes out what is over, leaves the rest in order, and counts what it took. */
  lemma {:induction false} SweepLaw(c: Cache, now: real)
    requires Valid(c)
    ensures var d := Sweep(c, now);
      && Valid(d) && d.maxEntries == c.maxEntries && d.keys == Living(c.keys, c.entries, now)
      && (forall k :: k in d.entries <==> k in c.entries && now < c.entries[k].expiresAt)
      && (forall k :: k in d.entries ==> d.entries[k] == c.entries[k])
      && d.stats == c.stats.(evictions := c.stats.evictions + (|c.keys| - |d.keys|), size := |d.keys|)
  {
    SweepRemovesExpired(c, now);
    SweepKeysAre(c, now);
    hide Sweep, Valid, Living;
  }

  lemma {:induction false} SweepKeysAre(c: Cache, now: real)
    requires Valid(c)
    ensures Sweep(c, now).keys == Living(c.keys, c.entries, now) && Sweep(c, now).maxEntries == c.maxEntries
  {
    hide SweepOver, Living, Distinct;
    var swept := SweepOver(c, now, c.keys);
    assert c.keys == [] + c.keys;
    SweepLeavesLiving(c, now, [], c.keys);
    assert swept.keys == Living(c.keys, c.entries, now);
    assert swept.maxEntries == c.maxEntries by {
      SweepOverIs(c, now, c.keys);
    }
  }

  /** The limit is the one given, or 5000, in every run. */
  lemma {:induction false} LimitStays(now: real, maxEntries: Option<int>, steps: seq<Step>)
    ensures var c := Exec(Init(now, maxEntries), steps).cache;
      c.maxEntries == match maxEntries case Some(limit) => limit case None => 5000
    decreases |steps|
  {
    if steps != [] {
      var n := |steps| - 1;
      LimitStays(now, maxEntries, steps[..n]);
      RunKeepsInv(Init(now, maxEntries), steps[..n]);
      ExecLast(Init(now, maxEntries), steps);
      StepKeepsSetting(Exec(Init(now, maxEntries), steps[..n]), steps[n]);
      hide Exec, Next, Inv;
    }
  }

  lemma {:induction false} StepKeepsSetting(s: State, step: Step)
    requires Inv(s)
    ensures Next(s, step).cache.maxEntries == s.cache.maxEntries
  {
    if step.SweepNow? {
      SweepKeysAre(s.cache, s.now);
      hide Sweep;
    }
  }

  // ---------- reads and what happened before them ----------

  /** An accepted set of the key. */
  predicate Sets(step: Step, key: string) {
    step.SetKey? && step.key == key && step.ttl.Finite? && step.ttl.ms > 0.0
  }

  /** After this step what an earlier set stored no longer stands. */
  predicate Ends(step: Step, key: string) {
    step.ClearAll? || step == DeleteKey(key) || Sets(step, key)
  }

  /** The key was set at step `i` and neither set again, deleted nor cleared since. */
  ghost predicate LastSet(steps: seq<Step>, i: nat, key: string) {
    i < |steps| && Sets(steps[i], key) && forall j :: i < j < |steps| ==> !Ends(steps[j], key)
  }

  /** What step `j` of the run starts from. */
  function Before(now: real, maxEntries: Option<int>, steps: seq<Step>, j: nat): State
    requires j <= |steps|
  {
    Exec(Init(now, maxEntries), steps[..j])
  }

  /** Step `j` takes the key for space: it sets another one, which is new to a full cache, while
      this one is the oldest and not empty. */
  ghost predicate TakenAt(now: real, maxEntries: Option<int>, steps: seq<Step>, j: nat, key: string)
    requires j < |steps|
  {
    var c := Before(now, maxEntries, steps, j).cache;
    && steps[j].SetKey? && Sets(steps[j], steps[j].key)
    && TakesOldest(c, steps[j].key) && c.keys[0] == key
  }

  ghost predicate TakenAfter(now: real, maxEntries: Option<int>, steps: seq<Step>, i: nat, key: string) {
    exists j :: i < j < |steps| && TakenAt(now, maxEntries, steps, j, key)
  }

  /** The value that the last set of the key stored, and until when. */
  ghost predicate Stores(now: real, maxEntries: Option<int>, steps: seq<Step>, i: nat, key: string, e: Entry) {
    && LastSet(steps, i, key)
    && e == Entry(steps[i].value, Before(now, maxEntries, steps, i).now + steps[i].ttl.ms)
  }

  ghost predicate HistoryIs(now: real, maxEntries: Option<int>, steps: seq<Step>, s: State, key: string) {
    && (key in s.shadow ==> exists i :: Stores(now, maxEntries, steps, i, key, s.shadow[key])
                                        && (key in s.lost <==> TakenAfter(now, maxEntries, steps, i, key)))
    && (key !in s.shadow ==> (forall i :: !LastSet(steps, i, key)) && key !in s.lost)
  }

  lemma {:induction false} ExecLast(s: State, steps: seq<Step>)
    requires steps != []
    ensures Exec(s, steps) == Next(Exec(s, steps[..|steps| - 1]), steps[|steps| - 1])
    decreases |steps|
  {
    if |steps| > 1 {
      ExecLast(Next(s, steps[0]), steps[1..]);
      assert steps[1..][..|steps| - 2] == steps[..|steps| - 1][1..];
    }
  }

  lemma {:induction false} LastSetIsOne(steps: seq<Step>, i: nat, j: nat, key: string)
    requires LastSet(steps, i, key) && LastSet(steps, j, key)
    ensures i == j
  {}

  lemma {:induction false} NextLastSet(steps: seq<Step>, i: nat, key: string)
    requires steps != []
    ensures var n := |steps| - 1;
      LastSet(steps, i, key) <==>
        if i == n then Sets(steps[n], key) else LastSet(steps[..n], i, key) && !Ends(steps[n], key)
  {
    var n := |steps| - 1;
    var before := steps[..n];
    assert forall j :: 0 <= j < n ==> before[j] == steps[j];
    if i < n && LastSet(steps, i, key) {
      assert !Ends(steps[n], key);
    }
  }

  lemma {:induction false} NextTaken(now: real, maxEntries: Option<int>, steps: seq<Step>, i: nat, key: string)
    requires i < |steps| - 1
    ensures var n := |steps| - 1;
      TakenAfter(now, maxEntries, steps, i, key) <==>
        TakenAfter(now, maxEntries, steps[..n], i, key) || TakenAt(now, maxEntries, steps, n, key)
  {
    var n := |steps| - 1;
    var before := steps[..n];
    forall j: nat | j < n
      ensures TakenAt(now, maxEntries, before, j, key) <==> TakenAt(now, maxEntries, steps, j, key)
    {
      assert before[..j] == steps[..j];
    }
    hide TakenAt;
  }

  lemma {:induction false} NextStores(now: real, maxEntries: Option<int>, steps: seq<Step>, i: nat, key: string,
                                      e: Entry)
    requires steps != [] && !Ends(steps[|steps| - 1], key)
    ensures Stores(now, maxEntries, steps, i, key, e) <==> Stores(now, maxEntries, steps[..|steps| - 1], i, key, e)
  {
    var n := |steps| - 1;
    NextLastSet(steps, i, key);
    if i < n {
      assert steps[..n][..i] == steps[..i] && steps[..n][i] == steps[i];
    }
    hide LastSet;
  }

  lemma {:induction false} EvictedMeans(c: Cache, key: string, other: string)
    requires Valid(c)
    ensures other in Evicted(c, key) <==> TakesOldest(c, key) && c.keys[0] == other
  {}

  /** A step that leaves the key's entry standing may still take it for space. */
  lemma {:induction false} OtherStep(s: State, step: Step, key: string)
    requires Inv(s) && !Ends(step, key)
    ensures var t := Next(s, step);
      && (key in t.shadow <==> key in s.shadow) && (key in s.shadow ==> t.shadow[key] == s.shadow[key])
      && (key in t.lost <==> key in s.lost || (key in s.shadow && step.SetKey? && Sets(step, step.key)
                                               && TakesOldest(s.cache, step.key) && s.cache.keys[0] == key))
  {
    if step.SetKey? {
      EvictedMeans(s.cache, step.key, key);
      EvictedIs(s.cache, step.key);
    }
    hide OnSet, OnGet, OnDelete, OnClear, Sweep, Evicted, TakesOldest, Valid, Accounted;
  }

  lemma {:induction false} EndingStep(s: State, step: Step, key: string)
    requires Ends(step, key)
    ensures var t := Next(s, step);
      && key !in t.lost
      && (if Sets(step, key) then key in t.shadow && t.shadow[key] == Entry(step.value, s.now + step.ttl.ms)
          else key !in t.shadow)
  {
    hide OnSet, OnDelete, OnClear, Evicted;
  }

  lemma {:induction false} NextHistory(now: real, maxEntries: Option<int>, steps: seq<Step>, key: string)
    requires steps != []
    requires HistoryIs(now, maxEntries, steps[..|steps| - 1], Before(now, maxEntries, steps, |steps| - 1), key)
    requires Inv(Before(now, maxEntries, steps, |steps| - 1))
    ensures HistoryIs(now, maxEntries, steps, Exec(Init(now, maxEntries), steps), key)
  {
    var n := |steps| - 1;
    var s, step, t := Before(now, maxEntries, steps, n), steps[n], Exec(Init(now, maxEntries), steps);
    ExecLast(Init(now, maxEntries), steps);
    assert steps[..n + 1] == steps;
    if Ends(step, key) {
      EndingStep(s, step, key);
      NextEnding(now, maxEntries, steps, key);
      hide Inv, Ends, Sets, Exec, Next, LastSet, TakenAt;
    } else {
      OtherStep(s, step, key);
      hide Inv, Ends, Next, TakesOldest, Exec;
      if key in s.shadow {
        var i :| Stores(now, maxEntries, steps[..n], i, key, s.shadow[key])
                 && (key in s.lost <==> TakenAfter(now, maxEntries, steps[..n], i, key));
        NextStores(now, maxEntries, steps, i, key, s.shadow[key]);
        NextTaken(now, maxEntries, steps, i, key);
        assert TakenAt(now, maxEntries, steps, n, key) <==>
          step.SetKey? && Sets(step, step.key) && TakesOldest(s.cache, step.key) && s.cache.keys[0] == key;
        hide TakenAt, Stores, TakenAfter;
      } else {
        forall i: nat
          ensures !LastSet(steps, i, key)
        {
          NextLastSet(steps, i, key);
          assert i == n ==> !Sets(steps[n], key) by {
            NotEnding(step, key);
          }
        }
      }
    }
  }

  lemma {:induction false} NotEnding(step: Step, key: string)
    requires !Ends(step, key)
    ensures !Sets(step, key)
  {}

  lemma {:induction false} NextEnding(now: real, maxEntries: Option<int>, steps: seq<Step>, key: string)
    requires steps != [] && Ends(steps[|steps| - 1], key)
    ensures var n := |steps| - 1;
      && (forall i: nat :: LastSet(steps, i, key) ==> i == n)
      && (LastSet(steps, n, key) <==> Sets(steps[n], key))
      && !TakenAfter(now, maxEntries, steps, n, key)
  {
    forall i: nat
      ensures LastSet(steps, i, key) <==> i == |steps| - 1 && Sets(steps[i], key)
    {
      NextLastSet(steps, i, key);
    }
  }

  lemma {:induction false} HistoryOf(now: real, maxEntries: Option<int>, steps: seq<Step>, key: string)
    ensures HistoryIs(now, maxEntries, steps, Exec(Init(now, maxEntries), steps), key)
    decreases |steps|
  {
    if steps != [] {
      var n := |steps| - 1;
      HistoryOf(now, maxEntries, steps[..n], key);
      RunKeepsInv(Init(now, maxEntries), steps[..n]);
      hide Inv, HistoryIs;
      NextHistory(now, maxEntries, steps, key);
    }
  }

  /** In every run a read answers with a value exactly when the last accepted set of the key
      stored it, neither a delete nor a clear came after, its time is not over, and no later
      set took the key for space. */
  lemma {:induction false} ReadAnswersIff(now: real, maxEntries: Option<int>, steps: seq<Step>, key: string,
                                          value: Value)
    ensures var s := Exec(Init(now, maxEntries), steps);
      OnGet(s.cache, s.now, key).1 == Some(value) <==>
        exists i, e :: Stores(now, maxEntries, steps, i, key, e) && e.value == value && s.now < e.expiresAt
                       && !TakenAfter(now, maxEntries, steps, i, key)
  {
    var s := Exec(Init(now, maxEntries), steps);
    GetAnswersAsMap(now, maxEntries, steps, key);
    HistoryOf(now, maxEntries, steps, key);
    forall i, j | LastSet(steps, i, key) && LastSet(steps, j, key)
      ensures i == j
    {
      LastSetIsOne(steps, i, j, key);
    }
    hide OnGet, Exec, LastSet, TakenAfter;
  }

  /** The clock stands at the latest time it was ever set to. */
  lemma {:induction false} ClockIs(s: State, steps: seq<Step>)
    ensures var t := Exec(s, steps);
      && s.now <= t.now
      && (forall i :: 0 <= i < |steps| && steps[i].Tick? ==> steps[i].to <= t.now)
      && (t.now == s.now || exists i :: 0 <= i < |steps| && steps[i] == Tick(t.now))
    decreases |steps|
  {
    if steps != [] {
      ClockIs(Next(s, steps[0]), steps[1..]);
      assert forall i :: 1 <= i < |steps| ==> steps[i] == steps[1..][i - 1];
      hide OnSet, OnGet, OnDelete, OnClear, Sweep;
    }
  }

  // ---------- the cache object ----------

  /** The sweep's walk has passed the first `i` keys. */
  ghost predicate SweptTo(before: Cache, c: Cache, now: real, todo: seq<string>, i: nat)
    requires i <= |todo|
  {
    Ordered(c) && SweepOver(c, now, todo[i..]) == SweepOver(before, now, todo)
  }

  lemma {:induction false} SweepStarts(c: Cache, now: real)
    requires Ordered(c)
    ensures SweptTo(c, c, now, c.keys, 0)
  {
    assert c.keys[0..] == c.keys;
  }

  lemma {:induction false} SweepPasses(before: Cache, c: Cache, now: real, todo: seq<string>, i: nat)
    requires i < |todo| && SweptTo(before, c, now, todo, i)
    ensures if todo[i] in c.entries && now >= c.entries[todo[i]].expiresAt
            then SweptTo(before, Remove(c, todo[i]), now, todo, i + 1) && |Remove(c, todo[i]).keys| == |c.keys| - 1
            else SweptTo(before, c, now, todo, i + 1)
  {
    assert todo[i..][1..] == todo[i + 1..];
    RemoveKeepsOrder(c, todo[i]);
    hide Remove, Ordered;
  }

  lemma {:induction false} SweepEnds(before: Cache, c: Cache, now: real)
    requires Ordered(before) && SweptTo(before, c, now, before.keys, |before.keys|)
    ensures Sweep(before, now) ==
            if |c.keys| < |before.keys| then
              SyncSize(c.(stats := before.stats.(evictions := before.stats.evictions + |before.keys| - |c.keys|)))
            else c
  {
    assert before.keys[|before.keys|..] == [];
    hide Ordered;
  }

  class MemoryTtlCache {
    const maxEntries: int
    var keys: seq<string>
    var entries: map<string, Entry>
    var stats: Stats

    constructor (maxEntries: Option<int>)
      ensures Contents() == Empty(maxEntries)
    {
      this.maxEntries := if maxEntries.Some? then maxEntries.value else 5000;
      keys := [];
      entries := map[];
      stats := Stats(0, 0, 0, 0, 0, 0);
    }

    function Contents(): Cache
      reads this
    {
      Cache(maxEntries, keys, entries, stats)
    }

    method RemoveEntry(key: string)
      modifies this`keys, this`entries
      ensures Contents() == Remove(old(Contents()), key)
    {
      keys := Without(keys, key);
      entries := entries - {key};
    }

    method Get(now: real, key: string) returns (r: Option<Value>)
      modifies this
      ensures (Contents(), r) == OnGet(old(Contents()), now, key)
    {
      if key !in entries {
        stats := stats.(misses := stats.misses + 1);
        return None;
      }
      var hit := entries[key];
      if now >= hit.expiresAt {
        RemoveEntry(key);
        stats := stats.(misses := stats.misses + 1, evictions := stats.evictions + 1, size := |keys|);
        return None;
      }
      stats := stats.(hits := stats.hits + 1);
      return Some(hit.value);
    }

    method EvictOneOldestEntry()
      modifies this
      ensures Contents() == EvictOneOldest(old(Contents()))
    {
      if keys == [] || keys[0] == "" {
        return;
      }
      RemoveEntry(keys[0]);
      stats := stats.(evictions := stats.evictions + 1, size := |keys|);
    }

    method Set(now: real, key: string, value: Value, ttl: Ttl) returns (r: Result<(), string>)
      modifies this
      ensures Contents() == OnSet(old(Contents()), now, key, value, ttl)
      ensures r.Ok? <==> Accepts(ttl)
    {
      if !Accepts(ttl) {
        return Err("Invalid cache ttlMs for key " + key);
      }
      if |keys| >= maxEntries && key !in entries {
        EvictOneOldestEntry();
      }
      if key !in entries {
        keys := keys + [key];
      }
      entries := entries[key := Entry(value, now + ttl.ms)];
      stats := stats.(sets := stats.sets + 1, size := |keys|);
      return Ok(());
    }

    method Delete(key: string)
      modifies this
      ensures Contents() == OnDelete(old(Contents()), key)
    {
      if key in entries {
        RemoveEntry(key);
        stats := stats.(deletes := stats.deletes + 1, size := |keys|);
      }
    }

    method Clear()
      modifies this
      ensures Contents() == OnClear(old(Contents()))
    {
      keys := [];
      entries := map[];
      stats := stats.(size := 0);
    }

    method EvictExpiredEntries(now: real)
      requires Valid(Contents())
      modifies this
      ensures Contents() == Sweep(old(Contents()), now)
    {
      ghost var before := Contents();
      SweepStarts(before, now);
      hide SweepOver, Remove, Ordered, SweptTo, Sweep;
      var todo := keys;
      var removed := 0;
      for i := 0 to |todo|
        invariant SweptTo(before, Contents(), now, todo, i)
        invariant removed + |keys| == |todo| && stats == before.stats
      {
        SweepPasses(before, Contents(), now, todo, i);
        if todo[i] in entries && now >= entries[todo[i]].expiresAt {
          RemoveEntry(todo[i]);
          removed := removed + 1;
        }
      }
      SweepEnds(before, Contents(), now);
      if removed > 0 {
        stats := stats.(evictions := stats.evictions + removed, size := |keys|);
      }
    }
  }
}
