/**
 * The browser persistence service: an IndexedDB database with a
 * `sessions` object store keyed by each session's `id` (with a `by-date`
 * index on `updatedAt`) and a `settings` object store with out-of-line
 * keys. The database is modelled as its contents; every asynchronous
 * operation either settles with its result or, when the service was built
 * without a `window`, stays pending forever.
 */
module Storage {
  import opened Wrappers
  import opened Types

  /** A settled promise carries its value; a `Pending` one never settles. */
  datatype Settles<+T> = Pending | Settled(value: T)

  /**
   * A key of the settings store. The service writes only string keys, but
   * the store admits any IndexedDB key, and `getAllSettings` skips the rest.
   */
  datatype IdbKey = StringKey(text: string) | OtherKey(code: int)

  /** The values the client keeps in the settings store. */
  datatype SettingValue =
    | KeyTable(keys: map<string, string>)
    | ThemeSetting(theme: Theme)
    | TextSizeSetting(size: TextSize)
    | ModelSetting(config: ModelConfig)

  // ---------------------------------------------------- ordering of ids

  /** String-key order of IndexedDB: lexicographic by character code. */
  predicate IdBefore(a: string, b: string)
  {
    if a == [] then b != []
    else if b == [] then false
    else if a[0] != b[0] then a[0] < b[0]
    else IdBefore(a[1..], b[1..])
  }

  lemma {:induction false} IdBeforeIrreflexive(a: string)
    ensures !IdBefore(a, a)
  {
    if a != [] { IdBeforeIrreflexive(a[1..]); }
  }

  lemma {:induction false} IdBeforeTotal(a: string, b: string)
    ensures a == b || IdBefore(a, b) || IdBefore(b, a)
  {
    if a != [] && b != [] && a[0] == b[0] {
      IdBeforeTotal(a[1..], b[1..]);
      if a[1..] == b[1..] {
        assert a == [a[0]] + a[1..] && b == [b[0]] + b[1..];
      }
    }
  }

  lemma {:induction false} IdBeforeTransitive(a: string, b: string, c: string)
    requires IdBefore(a, b) && IdBefore(b, c)
    ensures IdBefore(a, c)
  {
    if a != [] && b != [] && c != [] && a[0] == b[0] && b[0] == c[0] {
      IdBeforeTransitive(a[1..], b[1..], c[1..]);
    }
  }

  /**
   * The order `getSessions` lists sessions in: the `by-date` index yields
   * increasing `updatedAt` with equal dates in increasing key order, and the
   * service reverses that list, so the newest session comes first and equal
   * dates come in decreasing id order.
   */
  predicate ListedBefore(s: ChatSession, t: ChatSession)
  {
    s.updatedAt > t.updatedAt || (s.updatedAt == t.updatedAt && IdBefore(t.id, s.id))
  }

  lemma ListedBeforeTransitive(s: ChatSession, t: ChatSession, u: ChatSession)
    requires ListedBefore(s, t) && ListedBefore(t, u)
    ensures ListedBefore(s, u)
  {
    if s.updatedAt == t.updatedAt == u.updatedAt {
      IdBeforeTransitive(u.id, t.id, s.id);
    }
  }

  lemma ListedBeforeTotal(s: ChatSession, t: ChatSession)
    requires s.id != t.id
    ensures ListedBefore(s, t) || ListedBefore(t, s)
  {
    IdBeforeTotal(s.id, t.id);
  }

  lemma ListedBeforeAsymmetric(s: ChatSession, t: ChatSession)
    ensures !(ListedBefore(s, t) && ListedBefore(t, s))
  {
    if ListedBefore(s, t) && ListedBefore(t, s) {
      IdBeforeTransitive(s.id, t.id, s.id);
      IdBeforeIrreflexive(s.id);
    }
  }

  /** Sessions stored under their own ids, as the `keyPath: 'id'` store keeps them. */
  predicate KeyedById(sessions: map<string, ChatSession>)
  {
    forall id :: id in sessions ==> sessions[id].id == id
  }

  /** `list` holds every stored session exactly once, newest first. */
  predicate IsListing(sessions: map<string, ChatSession>, list: seq<ChatSession>)
  {
    && |list| == |sessions|
    && (forall k :: 0 <= k < |list| ==> list[k].id in sessions && sessions[list[k].id] == list[k])
    && (forall id :: id in sessions ==> sessions[id] in list)
    && (forall i, j :: 0 <= i < j < |list| ==> ListedBefore(list[i], list[j]))
  }

  /**
   * `list` is the start of the listing: the stored sessions outside
   * `remaining`, once each, in listing order, and all of them listed
   * before every session still remaining.
   */
  predicate PartialListing(sessions: map<string, ChatSession>, list: seq<ChatSession>, remaining: set<string>)
  {
    && remaining <= sessions.Keys
    && (forall k :: 0 <= k < |list| ==> list[k].id in sessions && sessions[list[k].id] == list[k] && list[k].id !in remaining)
    && (forall id :: id in sessions && id !in remaining ==> sessions[id] in list)
    && (forall i, j :: 0 <= i < j < |list| ==> ListedBefore(list[i], list[j]))
    && (forall k, id :: 0 <= k < |list| && id in remaining ==> ListedBefore(list[k], sessions[id]))
  }

  /** Appending the first remaining session extends the start of the listing by one. */
  lemma ListingGrows(sessions: map<string, ChatSession>, list: seq<ChatSession>, remaining: set<string>, next: string)
    requires KeyedById(sessions) && next in remaining
    requires PartialListing(sessions, list, remaining)
    requires forall o :: o in remaining && o != next ==> ListedBefore(sessions[next], sessions[o])
    ensures PartialListing(sessions, list + [sessions[next]], remaining - {next})
  {
    var grown := list + [sessions[next]];
    forall k | 0 <= k < |grown|
      ensures grown[k].id in sessions && sessions[grown[k].id] == grown[k] && grown[k].id !in remaining - {next}
    {
      if k < |list| { assert grown[k] == list[k]; } else { assert grown[k] == sessions[next]; }
    }
    forall i, j | 0 <= i < j < |grown| ensures ListedBefore(grown[i], grown[j]) {
      assert grown[i] == list[i];
      if j < |list| { assert grown[j] == list[j]; }
    }
    forall k, id | 0 <= k < |grown| && id in remaining - {next} ensures ListedBefore(grown[k], sessions[id]) {
      if k < |list| { assert grown[k] == list[k]; }
    }
    forall id | id in sessions && id !in remaining - {next} ensures sessions[id] in grown {
      if id != next { assert sessions[id] in list; }
      else { assert grown[|list|] == sessions[next]; }
    }
  }

  /** Among a non-empty set of stored ids, one comes first in listing order. */
  lemma {:induction false} FirstListedExists(sessions: map<string, ChatSession>, ids: set<string>)
    returns (first: string)
    requires KeyedById(sessions) && ids != {} && ids <= sessions.Keys
    ensures first in ids
    ensures forall o :: o in ids && o != first ==> ListedBefore(sessions[first], sessions[o])
    decreases |ids|
  {
    var x :| x in ids;
    if ids == {x} {
      first := x;
    } else {
      var y := FirstListedExists(sessions, ids - {x});
      ListedBeforeTotal(sessions[x], sessions[y]);
      if ListedBefore(sessions[x], sessions[y]) {
        first := x;
        forall o | o in ids && o != first
          ensures ListedBefore(sessions[first], sessions[o])
        {
          if o != y { ListedBeforeTransitive(sessions[x], sessions[y], sessions[o]); }
        }
      } else {
        first := y;
      }
    }
  }

  /** Two listings of the same store are equal: the listing order leaves no choice. */
  lemma {:induction false} ListingUnique(sessions: map<string, ChatSession>, a: seq<ChatSession>, b: seq<ChatSession>)
    requires IsListing(sessions, a) && IsListing(sessions, b)
    ensures a == b
  {
    forall k | 0 <= k < |a|
      ensures a[k] == b[k]
    {
      ListingAt(sessions, a, b, k);
    }
  }

  lemma ListingAt(sessions: map<string, ChatSession>, a: seq<ChatSession>, b: seq<ChatSession>, k: nat)
    requires IsListing(sessions, a) && IsListing(sessions, b) && k < |a|
    ensures a[k] == b[k]
  {
    var x := a[k];
    assert x.id in sessions && sessions[x.id] in b;
    var m :| 0 <= m < |b| && b[m] == x;
    OrderPigeon(sessions, a, b, k, m);
    OrderPigeon(sessions, b, a, m, k);
  }

  /**
   * An element at index k of one listing sits at index k or later in any
   * other listing: its k predecessors precede it in the other one too.
   */
  lemma OrderPigeon(sessions: map<string, ChatSession>, a: seq<ChatSession>, b: seq<ChatSession>, k: nat, m: nat)
    requires IsListing(sessions, a) && IsListing(sessions, b)
    requires k < |a| && m < |b| && a[k] == b[m]
    ensures k <= m
  {
    var ahead := set i | 0 <= i < k :: a[i];
    var ahead' := set j | 0 <= j < m :: b[j];
    forall s | s in ahead
      ensures s in ahead'
    {
      var i :| 0 <= i < k && a[i] == s;
      assert a[i].id in sessions && sessions[a[i].id] in b;
      var j :| 0 <= j < |b| && b[j] == s;
      if j > m {
        ListedBeforeAsymmetric(b[m], b[j]);
      } else if j == m {
        ListedBeforeAsymmetric(a[i], a[k]);
      }
    }
    DistinctCount(a, k);
    CountAtMost(b, m);
    SubsetCard(ahead, ahead');
  }

  lemma SubsetCard<T>(x: set<T>, y: set<T>)
    requires x <= y
    ensures |x| <= |y|
  {
    if x != {} {
      var e :| e in x;
      SubsetCard(x - {e}, y - {e});
    }
  }

  /** A strictly ordered list has `k` distinct elements before index `k`. */
  lemma {:induction false} DistinctCount(a: seq<ChatSession>, k: nat)
    requires k <= |a|
    requires forall i, j :: 0 <= i < j < |a| ==> ListedBefore(a[i], a[j])
    ensures |set i | 0 <= i < k :: a[i]| == k
  {
    if k > 0 {
      DistinctCount(a, k - 1);
      var prev := set i | 0 <= i < k - 1 :: a[i];
      assert (set i | 0 <= i < k :: a[i]) == prev + {a[k - 1]};
      if a[k - 1] in prev {
        var i :| 0 <= i < k - 1 && a[i] == a[k - 1];
        ListedBeforeAsymmetric(a[i], a[k - 1]);
      }
    }
  }

  lemma {:induction false} CountAtMost(b: seq<ChatSession>, m: nat)
    requires m <= |b|
    ensures |set j | 0 <= j < m :: b[j]| <= m
  {
    if m > 0 {
      CountAtMost(b, m - 1);
      assert (set j | 0 <= j < m :: b[j]) == (set j | 0 <= j < m - 1 :: b[j]) + {b[m - 1]};
    }
  }

  // ------------------------------------------------------ settings zip

  /** `db.get('settings', key)` over the parallel key and value lists. */
  function Lookup(keys: seq<IdbKey>, values: seq<SettingValue>, key: IdbKey): (found: Option<SettingValue>)
    requires |keys| == |values|
    ensures found.None? <==> key !in keys
    ensures found.Some? ==> exists k :: 0 <= k < |keys| && keys[k] == key && values[k] == found.value
  {
    if keys == [] then None
    else if keys[0] == key then Some(values[0])
    else
      var found := Lookup(keys[1..], values[1..], key);
      assert found.Some? ==> (exists k :: 1 <= k < |keys| && keys[k] == key && values[k] == found.value) by {
        if found.Some? {
          var k :| 0 <= k < |keys[1..]| && keys[1..][k] == key && values[1..][k] == found.value;
          assert keys[k + 1] == key && values[k + 1] == found.value;
        }
      }
      found
  }

  predicate DistinctKeys(keys: seq<IdbKey>)
  {
    forall i, j :: 0 <= i < j < |keys| ==> keys[i] != keys[j]
  }

  class StorageService {
    /** False when the service was constructed without a `window`: the database promise never settles. */
    var available: bool
    var sessions: map<string, ChatSession>
    var settingKeys: seq<IdbKey>
    var settingValues: seq<SettingValue>

    ghost predicate Valid()
      reads this
    {
      KeyedById(sessions) && |settingKeys| == |settingValues| && DistinctKeys(settingKeys)
    }

    /**
     * With a `window` the service opens the database, whose stores hold what
     * earlier visits left there; without one it opens nothing and throws nothing.
     */
    constructor (hasWindow: bool, stored: map<string, ChatSession>, keys: seq<IdbKey>, values: seq<SettingValue>)
      requires KeyedById(stored) && |keys| == |values| && DistinctKeys(keys)
      ensures Valid()
      ensures available == hasWindow
      ensures sessions == stored && settingKeys == keys && settingValues == values
    {
      available := hasWindow;
      sessions := stored;
      settingKeys := keys;
      settingValues := values;
    }

    /** `saveSession(session)`: `put` into the `sessions` store, replacing any session with that id. */
    method SaveSession(session: ChatSession) returns (settled: bool)
      requires Valid()
      modifies this`sessions
      ensures Valid()
      ensures settled == available
      ensures sessions == if available then old(sessions)[session.id := session] else old(sessions)
    {
      settled := available;
      if available {
        sessions := sessions[session.id := session];
      }
    }

    /** `getSession(id)`: the stored session with that id, or `undefined`. */
    method GetSession(id: string) returns (found: Settles<Option<ChatSession>>)
      requires Valid()
      ensures found.Pending? <==> !available
      ensures found.Settled? ==> (found.value.Some? <==> id in sessions)
      ensures found.Settled? && found.value.Some? ==> found.value.value == sessions[id] && found.value.value.id == id
    {
      if !available {
        return Pending;
      }
      if id in sessions {
        found := Settled(Some(sessions[id]));
      } else {
        found := Settled(None);
      }
    }

    /** `deleteSession(id)`: removes the session with that id; an absent id changes nothing. */
    method DeleteSession(id: string) returns (settled: bool)
      requires Valid()
      modifies this`sessions
      ensures Valid()
      ensures settled == available
      ensures sessions == if available then old(sessions) - {id} else old(sessions)
    {
      settled := available;
      if available {
        sessions := sessions - {id};
      }
    }

    /**
     * `getSessions()`: every stored session, newest `updatedAt` first. The
     * loop picks, from the sessions not yet listed, the one the reversed
     * `by-date` index puts first.
     */
    method GetSessions() returns (listed: Settles<seq<ChatSession>>)
      requires Valid()
      ensures listed.Pending? <==> !available
      ensures listed.Settled? ==> IsListing(sessions, listed.value)
    {
      if !available {
        return Pending;
      }
      var list: seq<ChatSession> := [];
      var remaining := sessions.Keys;
      while remaining != {}
        invariant |list| + |remaining| == |sessions|
        invariant PartialListing(sessions, list, remaining)
        decreases |remaining|
      {
        ghost var first := FirstListedExists(sessions, remaining);
        var next :| next in remaining && forall o :: o in remaining && o != next ==> ListedBefore(sessions[next], sessions[o]);
        ListingGrows(sessions, list, remaining, next);
        list := list + [sessions[next]];
        remaining := remaining - {next};
      }
      listed := Settled(list);
    }

    /** `saveSetting(key, value)`: `put` into the `settings` store under `key`. */
    method SaveSetting(key: string, value: SettingValue) returns (settled: bool)
      requires Valid()
      modifies this`settingKeys, this`settingValues
      ensures Valid()
      ensures settled == available
      ensures !available ==> settingKeys == old(settingKeys) && settingValues == old(settingValues)
      ensures available ==> Lookup(settingKeys, settingValues, StringKey(key)) == Some(value)
      ensures available ==> forall k :: k != StringKey(key) ==>
        Lookup(settingKeys, settingValues, k) == Lookup(old(settingKeys), old(settingValues), k)
    {
      settled := available;
      if !available {
        return;
      }
      var i := 0;
      while i < |settingKeys| && settingKeys[i] != StringKey(key)
        invariant 0 <= i <= |settingKeys|
        invariant forall j :: 0 <= j < i ==> settingKeys[j] != StringKey(key)
      {
        i := i + 1;
      }
      if i < |settingKeys| {
        ReplaceLookup(settingKeys, settingValues, i, value);
        settingValues := settingValues[i := value];
      } else {
        AppendLookup(settingKeys, settingValues, StringKey(key), value);
        settingKeys := settingKeys + [StringKey(key)];
        settingValues := settingValues + [value];
      }
    }

    /** `getSetting(key)`: the value stored under `key`, or `undefined`. */
    method GetSetting(key: string) returns (found: Settles<Option<SettingValue>>)
      requires Valid()
      ensures found.Pending? <==> !available
      ensures found.Settled? ==> (found.value.Some? <==> StringKey(key) in settingKeys)
      ensures found.Settled? && found.value.Some? ==>
        exists k :: 0 <= k < |settingKeys| && settingKeys[k] == StringKey(key) && settingValues[k] == found.value.value
    {
      if !available {
        return Pending;
      }
      found := Settled(Lookup(settingKeys, settingValues, StringKey(key)));
    }

    /**
     * `getAllSettings()`: walks the key list and the value list together and
     * records the i-th value under the i-th key when that key is a string.
     */
    method GetAllSettings() returns (record: Settles<map<string, SettingValue>>)
      requires Valid()
      ensures record.Pending? <==> !available
      ensures record.Settled? ==> (forall k :: k in record.value <==> StringKey(k) in settingKeys)
      ensures record.Settled? ==> forall k :: k in record.value ==>
        Lookup(settingKeys, settingValues, StringKey(k)) == Some(record.value[k])
    {
      if !available {
        return Pending;
      }
      var result: map<string, SettingValue> := map[];
      var i := 0;
      while i < |settingKeys|
        invariant 0 <= i <= |settingKeys|
        invariant forall k :: k in result <==> StringKey(k) in settingKeys[..i]
        invariant forall k :: k in result ==> Lookup(settingKeys, settingValues, StringKey(k)) == Some(result[k])
      {
        var key := settingKeys[i];
        if key.StringKey? {
          LookupAt(settingKeys, settingValues, i);
          result := result[key.text := settingValues[i]];
        }
        assert settingKeys[..i + 1] == settingKeys[..i] + [key];
        i := i + 1;
      }
      assert settingKeys[..i] == settingKeys;
      record := Settled(result);
    }
  }

  /** With distinct keys, the value at a key's position is what a lookup finds. */
  lemma {:induction false} LookupAt(keys: seq<IdbKey>, values: seq<SettingValue>, i: nat)
    requires |keys| == |values| && DistinctKeys(keys) && i < |keys|
    ensures Lookup(keys, values, keys[i]) == Some(values[i])
  {
    if i > 0 {
      LookupAt(keys[1..], values[1..], i - 1);
    }
  }

  lemma {:induction false} ReplaceLookup(keys: seq<IdbKey>, values: seq<SettingValue>, i: nat, value: SettingValue)
    requires |keys| == |values| && DistinctKeys(keys) && i < |keys|
    ensures Lookup(keys, values[i := value], keys[i]) == Some(value)
    ensures forall k :: k != keys[i] ==> Lookup(keys, values[i := value], k) == Lookup(keys, values, k)
  {
    LookupAt(keys, values[i := value], i);
    forall k | k != keys[i]
      ensures Lookup(keys, values[i := value], k) == Lookup(keys, values, k)
    {
      LookupOther(keys, values, i, value, k);
    }
  }

  lemma {:induction false} LookupOther(keys: seq<IdbKey>, values: seq<SettingValue>, i: nat, value: SettingValue, k: IdbKey)
    requires |keys| == |values| && i < |keys| && k != keys[i]
    ensures Lookup(keys, values[i := value], k) == Lookup(keys, values, k)
    decreases i
  {
    if keys[0] == k {
      assert values[i := value][0] == values[0];
    } else if i == 0 {
      assert values[i := value][1..] == values[1..];
    } else {
      assert values[i := value][1..] == values[1..][i - 1 := value];
      LookupOther(keys[1..], values[1..], i - 1, value, k);
    }
  }

  lemma {:induction false} AppendLookup(keys: seq<IdbKey>, values: seq<SettingValue>, key: IdbKey, value: SettingValue)
    requires |keys| == |values| && DistinctKeys(keys) && key !in keys
    ensures DistinctKeys(keys + [key])
    ensures Lookup(keys + [key], values + [value], key) == Some(value)
    ensures forall k :: k != key ==> Lookup(keys + [key], values + [value], k) == Lookup(keys, values, k)
  {
    if keys != [] {
      assert (keys + [key])[1..] == keys[1..] + [key];
      assert (values + [value])[1..] == values[1..] + [value];
      AppendLookup(keys[1..], values[1..], key, value);
    }
  }
}
