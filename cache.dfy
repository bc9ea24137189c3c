// The versioned ruleset cache of internal/rulesets/cache/cache.go.
//
// The cache maps an instance name to the list of ruleset versions stored for
// it, oldest first, together with the UUID of the latest one. Time is counted
// in nanoseconds; UUID generation and the clock are parameters of the
// operations that use them.
module Cache {
  import opened Strings
  import opened Wrappers
  import opened Seqs

  /** A cached ruleset version (RuleSetEntry). */
  datatype RuleSetEntry = RuleSetEntry(uuid: string, timestamp: int, rules: string)

  /** All versions of one instance, oldest first, and the latest UUID (RuleSetEntries). */
  datatype RuleSetEntries = RuleSetEntries(latest: string, entries: seq<RuleSetEntry>)

  type Store = map<string, RuleSetEntries>

  predicate DistinctUuids(es: seq<RuleSetEntry>)
  {
    forall i, j :: 0 <= i < j < |es| ==> es[i].uuid != es[j].uuid
  }

  /** What Put and the prunes maintain for every instance: at least one version,
      pairwise distinct UUIDs, and the newest version is the one marked latest. */
  predicate WellFormed(v: RuleSetEntries)
  {
    |v.entries| > 0 && v.entries[|v.entries| - 1].uuid == v.latest && DistinctUuids(v.entries)
  }

  predicate WellFormedStore(m: Store)
  {
    forall k :: k in m ==> WellFormed(m[k])
  }

  // ---------------------------------------------------------------------------
  // Lookup (the specification of Get)
  // ---------------------------------------------------------------------------

  /** The first version carrying the given UUID. */
  function FirstWithUuid(es: seq<RuleSetEntry>, uuid: string): (r: Option<RuleSetEntry>)
    ensures r.Some? ==> r.value in es && r.value.uuid == uuid
    ensures r.None? ==> forall i :: 0 <= i < |es| ==> es[i].uuid != uuid
  {
    if es == [] then None
    else if es[0].uuid == uuid then Some(es[0])
    else FirstWithUuid(es[1..], uuid)
  }

  /** What Get returns: nothing for an unknown or empty instance, otherwise the
      first version whose UUID is the latest one (nothing if none matches). */
  function Lookup(m: Store, instance: string): Option<RuleSetEntry>
  {
    if instance !in m || |m[instance].entries| == 0 then None
    else FirstWithUuid(m[instance].entries, m[instance].latest)
  }

  lemma {:induction false} FirstWithUuidUnique(es: seq<RuleSetEntry>, i: int)
    requires DistinctUuids(es) && 0 <= i < |es|
    ensures FirstWithUuid(es, es[i].uuid) == Some(es[i])
  {
    if i > 0 {
      assert es[0].uuid != es[i].uuid;
      assert es[1..][i - 1] == es[i];
      FirstWithUuidUnique(es[1..], i - 1);
    }
  }

  /** In a well-formed cache a known instance always yields its newest version. */
  lemma LookupWellFormed(m: Store, instance: string)
    requires WellFormedStore(m)
    ensures Lookup(m, instance).Some? <==> instance in m
    ensures instance in m ==> Lookup(m, instance) == Some(m[instance].entries[|m[instance].entries| - 1])
  {
    if instance in m {
      var es := m[instance].entries;
      FirstWithUuidUnique(es, |es| - 1);
    }
  }

  // ---------------------------------------------------------------------------
  // Sums over the whole cache (TotalSize and the number of versions)
  // ---------------------------------------------------------------------------

  /** Total UTF-8 byte length of the rules of a list of versions. */
  function EntriesSize(es: seq<RuleSetEntry>): (n: nat)
  {
    if es == [] then 0 else Utf8Len(es[0].rules) + EntriesSize(es[1..])
  }

  lemma {:induction false} EntriesSizeAppend(a: seq<RuleSetEntry>, b: seq<RuleSetEntry>)
    ensures EntriesSize(a + b) == EntriesSize(a) + EntriesSize(b)
  {
    if a == [] {
      assert a + b == b;
    } else {
      assert (a + b)[1..] == a[1..] + b;
      EntriesSizeAppend(a[1..], b);
    }
  }

  datatype Measure = Bytes | Versions

  function Weigh(v: RuleSetEntries, w: Measure): nat
  {
    match w
    case Bytes => EntriesSize(v.entries)
    case Versions => |v.entries|
  }

  /** The sum of a measure over the instances in keys. */
  ghost function SumOver(m: Store, keys: set<string>, w: Measure): int
    requires keys <= m.Keys
    decreases keys
  {
    if keys == {} then 0
    else
      var k :| k in keys;
      Weigh(m[k], w) + SumOver(m, keys - {k}, w)
  }

  /** TotalSize of the cache: bytes of rules over every version of every instance. */
  ghost function TotalSizeOf(m: Store): int
  {
    SumOver(m, m.Keys, Bytes)
  }

  /** Number of versions held over all instances. */
  ghost function CountOf(m: Store): int
  {
    SumOver(m, m.Keys, Versions)
  }

  lemma {:induction false} SumOverRemove(m: Store, keys: set<string>, w: Measure, k: string)
    requires keys <= m.Keys && k in keys
    ensures SumOver(m, keys, w) == Weigh(m[k], w) + SumOver(m, keys - {k}, w)
    decreases keys
  {
    var j :| j in keys && SumOver(m, keys, w) == Weigh(m[j], w) + SumOver(m, keys - {j}, w);
    if j != k {
      SumOverRemove(m, keys - {j}, w, k);
      SumOverRemove(m, keys - {k}, w, j);
      assert keys - {j} - {k} == keys - {k} - {j};
    }
  }

  lemma {:induction false} SumOverFrame(m: Store, n: Store, keys: set<string>, w: Measure)
    requires keys <= m.Keys && keys <= n.Keys
    requires forall k :: k in keys ==> m[k] == n[k]
    ensures SumOver(m, keys, w) == SumOver(n, keys, w)
    decreases keys
  {
    if keys != {} {
      var k :| k in keys;
      SumOverRemove(m, keys, w, k);
      SumOverRemove(n, keys, w, k);
      SumOverFrame(m, n, keys - {k}, w);
    }
  }

  lemma SumOverNonNegative(m: Store, keys: set<string>, w: Measure)
    requires keys <= m.Keys
    ensures SumOver(m, keys, w) >= 0
    decreases keys
  {
    if keys != {} {
      var k :| k in keys;
      SumOverRemove(m, keys, w, k);
      SumOverNonNegative(m, keys - {k}, w);
    }
  }

  /** Replacing the versions of one instance changes a sum by the difference. */
  lemma SumUpdate(m: Store, k: string, v: RuleSetEntries, w: Measure)
    ensures k in m ==> SumOver(m[k := v], m[k := v].Keys, w) == SumOver(m, m.Keys, w) - Weigh(m[k], w) + Weigh(v, w)
    ensures k !in m ==> SumOver(m[k := v], m[k := v].Keys, w) == SumOver(m, m.Keys, w) + Weigh(v, w)
  {
    var n := m[k := v];
    SumOverRemove(n, n.Keys, w, k);
    SumOverFrame(m, n, n.Keys - {k}, w);
    if k in m {
      SumOverRemove(m, m.Keys, w, k);
      assert n.Keys - {k} == m.Keys - {k};
    } else {
      assert n.Keys - {k} == m.Keys;
    }
  }

  // ---------------------------------------------------------------------------
  // Put
  // ---------------------------------------------------------------------------

  /** No version of the instance already carries this UUID. */
  predicate UuidUnused(m: Store, instance: string, uuid: string)
  {
    instance in m ==> forall e :: e in m[instance].entries ==> e.uuid != uuid
  }

  /** The cache after Put: a new instance gets a one-element list, a known one
      gets the entry appended; either way the entry becomes the latest. */
  function PutModel(m: Store, instance: string, e: RuleSetEntry): Store
  {
    if instance !in m then m[instance := RuleSetEntries(e.uuid, [e])]
    else m[instance := RuleSetEntries(e.uuid, m[instance].entries + [e])]
  }

  /** Put keeps the cache well-formed, serves the new entry for its instance,
      and leaves the other instances as they were. */
  lemma PutModelFacts(m: Store, instance: string, e: RuleSetEntry)
    requires WellFormedStore(m) && UuidUnused(m, instance, e.uuid)
    ensures WellFormedStore(PutModel(m, instance, e))
    ensures PutModel(m, instance, e).Keys == m.Keys + {instance}
    ensures Lookup(PutModel(m, instance, e), instance) == Some(e)
    ensures forall j :: j != instance ==> Lookup(PutModel(m, instance, e), j) == Lookup(m, j)
    ensures instance in m ==> PutModel(m, instance, e)[instance].entries[..|m[instance].entries|] == m[instance].entries
  {
    var n := PutModel(m, instance, e);
    if instance in m {
      var es := m[instance].entries + [e];
      assert forall i :: 0 <= i < |es| - 1 ==> es[i] in m[instance].entries;
      assert WellFormed(n[instance]);
    }
    LookupWellFormed(n, instance);
  }

  /** Put adds the byte length of the new rules to TotalSize and one version. */
  lemma PutModelSizes(m: Store, instance: string, e: RuleSetEntry)
    ensures TotalSizeOf(PutModel(m, instance, e)) == TotalSizeOf(m) + Utf8Len(e.rules)
    ensures CountOf(PutModel(m, instance, e)) == CountOf(m) + 1
  {
    if instance in m {
      var es := m[instance].entries;
      EntriesSizeAppend(es, [e]);
      assert EntriesSize([e]) == Utf8Len(e.rules);
      SumUpdate(m, instance, RuleSetEntries(e.uuid, es + [e]), Bytes);
      SumUpdate(m, instance, RuleSetEntries(e.uuid, es + [e]), Versions);
    } else {
      assert EntriesSize([e]) == Utf8Len(e.rules);
      SumUpdate(m, instance, RuleSetEntries(e.uuid, [e]), Bytes);
      SumUpdate(m, instance, RuleSetEntries(e.uuid, [e]), Versions);
    }
  }

  // ---------------------------------------------------------------------------
  // Prune by age
  // ---------------------------------------------------------------------------

  /** Prune keeps a version when it is the latest or not older than maxAge. */
  predicate YoungEnough(e: RuleSetEntry, latest: string, now: int, maxAge: int)
  {
    e.uuid == latest || now - e.timestamp <= maxAge
  }

  /** The versions of one instance that Prune keeps, in their original order. */
  function KeepByAge(es: seq<RuleSetEntry>, latest: string, now: int, maxAge: int): (kept: seq<RuleSetEntry>)
    ensures |kept| <= |es|
  {
    if es == [] then []
    else (if YoungEnough(es[0], latest, now, maxAge) then [es[0]] else []) + KeepByAge(es[1..], latest, now, maxAge)
  }

  /** The versions kept from position i on: version i if it is young enough,
      then those kept after it. */
  lemma KeepByAgeStep(es: seq<RuleSetEntry>, i: nat, latest: string, now: int, maxAge: int)
    requires i < |es|
    ensures KeepByAge(es[i..], latest, now, maxAge)
      == (if YoungEnough(es[i], latest, now, maxAge) then [es[i]] else []) + KeepByAge(es[i + 1..], latest, now, maxAge)
  {
    assert es[i..][1..] == es[i + 1..];
  }

  /** The cache after Prune(maxAge) at time now. */
  function PruneByAgeModel(m: Store, now: int, maxAge: int): (r: Store)
    ensures r.Keys == m.Keys
  {
    map k | k in m :: RuleSetEntries(m[k].latest, KeepByAge(m[k].entries, m[k].latest, now, maxAge))
  }

  /** A version survives Prune exactly when it is the latest or young enough,
      and the survivors keep their relative order. */
  lemma {:induction false} KeepByAgeMembers(es: seq<RuleSetEntry>, latest: string, now: int, maxAge: int)
    ensures forall e :: e in KeepByAge(es, latest, now, maxAge) <==> e in es && YoungEnough(e, latest, now, maxAge)
    ensures IsSubsequence(KeepByAge(es, latest, now, maxAge), es)
  {
    if es != [] {
      KeepByAgeMembers(es[1..], latest, now, maxAge);
      var rest := KeepByAge(es[1..], latest, now, maxAge);
      assert es == [es[0]] + es[1..];
      if YoungEnough(es[0], latest, now, maxAge) {
        assert ([es[0]] + rest)[1..] == rest;
      } else {
        assert KeepByAge(es, latest, now, maxAge) == rest;
        SubsequenceSkip(rest, es);
      }
    }
  }

  /** Prune never removes the latest version, so a well-formed list stays well-formed. */
  lemma KeepByAgeWellFormed(v: RuleSetEntries, now: int, maxAge: int)
    requires WellFormed(v)
    ensures WellFormed(RuleSetEntries(v.latest, KeepByAge(v.entries, v.latest, now, maxAge)))
    ensures var kept := KeepByAge(v.entries, v.latest, now, maxAge);
      kept[|kept| - 1] == v.entries[|v.entries| - 1]
  {
    KeepByAgeLast(v.entries, v.latest, now, maxAge);
    KeepByAgeDistinct(v.entries, v.latest, now, maxAge);
  }

  /** The last version is the latest, and Prune keeps it. */
  lemma {:induction false} KeepByAgeLast(es: seq<RuleSetEntry>, latest: string, now: int, maxAge: int)
    requires |es| > 0 && es[|es| - 1].uuid == latest
    ensures var kept := KeepByAge(es, latest, now, maxAge);
      |kept| > 0 && kept[|kept| - 1] == es[|es| - 1]
  {
    if |es| > 1 {
      assert es[1..][|es| - 2] == es[|es| - 1];
      KeepByAgeLast(es[1..], latest, now, maxAge);
    }
  }

  /** Dropping versions keeps the UUIDs distinct. */
  lemma {:induction false} KeepByAgeDistinct(es: seq<RuleSetEntry>, latest: string, now: int, maxAge: int)
    requires DistinctUuids(es)
    ensures DistinctUuids(KeepByAge(es, latest, now, maxAge))
  {
    if es != [] {
      assert DistinctUuids(es[1..]) by {
        forall i, j | 0 <= i < j < |es[1..]| ensures es[1..][i].uuid != es[1..][j].uuid {
          assert es[1..][i] == es[i + 1] && es[1..][j] == es[j + 1];
        }
      }
      KeepByAgeDistinct(es[1..], latest, now, maxAge);
      var rest := KeepByAge(es[1..], latest, now, maxAge);
      if YoungEnough(es[0], latest, now, maxAge) {
        var kept := [es[0]] + rest;
        KeepByAgeMembers(es[1..], latest, now, maxAge);
        forall i, j | 0 <= i < j < |kept| ensures kept[i].uuid != kept[j].uuid {
          if i == 0 {
            assert kept[j] in rest;
            var k :| 0 <= k < |es[1..]| && es[1..][k] == kept[j];
            assert es[k + 1] == kept[j];
          } else {
            assert kept[i] == rest[i - 1] && kept[j] == rest[j - 1];
          }
        }
      }
    }
  }

  /** Prune keeps every instance, keeps the cache well-formed, and does not
      change what is served for any instance. */
  lemma PruneByAgeModelFacts(m: Store, now: int, maxAge: int)
    requires WellFormedStore(m)
    ensures WellFormedStore(PruneByAgeModel(m, now, maxAge))
    ensures forall k :: Lookup(PruneByAgeModel(m, now, maxAge), k) == Lookup(m, k)
  {
    var r := PruneByAgeModel(m, now, maxAge);
    forall k | k in m ensures WellFormed(r[k]) {
      KeepByAgeWellFormed(m[k], now, maxAge);
    }
    forall k ensures Lookup(r, k) == Lookup(m, k) {
      LookupWellFormed(m, k);
      LookupWellFormed(r, k);
      if k in m {
        KeepByAgeWellFormed(m[k], now, maxAge);
      }
    }
  }

  // ---------------------------------------------------------------------------
  // Prune by size
  // ---------------------------------------------------------------------------

  datatype Kept = Kept(entries: seq<RuleSetEntry>, size: int, pruned: nat)

  /** The inner loop of PruneBySize over one instance: starting from the running
      total cur, drop versions other than the latest while the total exceeds
      maxSize, then keep the remainder. */
  function KeepBySize(es: seq<RuleSetEntry>, latest: string, cur: int, maxSize: int): Kept
  {
    if es == [] then Kept([], cur, 0)
    else if es[0].uuid == latest then
      var r := KeepBySize(es[1..], latest, cur, maxSize);
      Kept([es[0]] + r.entries, r.size, r.pruned)
    else if cur > maxSize then
      var r := KeepBySize(es[1..], latest, cur - Utf8Len(es[0].rules), maxSize);
      Kept(r.entries, r.size, r.pruned + 1)
    else
      var r := KeepBySize(es[1..], latest, cur, maxSize);
      Kept([es[0]] + r.entries, r.size, r.pruned)
  }

  /** The running total goes down by exactly the bytes dropped, one count per
      dropped version; nothing is dropped when the total is already within bounds. */
  lemma {:induction false} KeepBySizeAccounting(es: seq<RuleSetEntry>, latest: string, cur: int, maxSize: int)
    ensures var k := KeepBySize(es, latest, cur, maxSize);
      k.size == cur - EntriesSize(es) + EntriesSize(k.entries)
      && |k.entries| + k.pruned == |es|
      && k.size <= cur
      && (cur <= maxSize ==> k == Kept(es, cur, 0))
  {
    if es != [] {
      var next := if es[0].uuid != latest && cur > maxSize then cur - Utf8Len(es[0].rules) else cur;
      KeepBySizeAccounting(es[1..], latest, next, maxSize);
      var r := KeepBySize(es[1..], latest, next, maxSize);
      if es[0].uuid == latest || cur <= maxSize {
        assert ([es[0]] + r.entries)[1..] == r.entries;
        assert es == [es[0]] + es[1..];
      }
    }
  }

  /** k describes dropping the oldest versions of es: the shortest prefix that
      brings the running total cur within maxSize, or every version but the last. */
  predicate DropsOldest(es: seq<RuleSetEntry>, k: Kept, cur: int, maxSize: int)
  {
    k.pruned < |es|
    && k.entries == es[k.pruned..]
    && k.size == cur - EntriesSize(es[..k.pruned])
    && (k.size <= maxSize || k.pruned == |es| - 1)
    && (k.pruned > 0 ==> cur - EntriesSize(es[..k.pruned - 1]) > maxSize)
  }

  /** Dropping the first version and then the oldest of the rest drops the oldest of all. */
  lemma DropsOldestStep(es: seq<RuleSetEntry>, r: Kept, cur: int, maxSize: int)
    requires |es| > 1 && cur > maxSize
    requires DropsOldest(es[1..], r, cur - Utf8Len(es[0].rules), maxSize)
    ensures DropsOldest(es, Kept(r.entries, r.size, r.pruned + 1), cur, maxSize)
  {
    var p := r.pruned + 1;
    assert es[p..] == es[1..][r.pruned..];
    assert es[..p] == [es[0]] + es[1..][..r.pruned];
    EntriesSizeAppend([es[0]], es[1..][..r.pruned]);
    if r.pruned > 0 {
      assert es[..p - 1] == [es[0]] + es[1..][..r.pruned - 1];
      EntriesSizeAppend([es[0]], es[1..][..r.pruned - 1]);
    } else {
      assert es[..p - 1] == [];
    }
  }

  /** On a well-formed list, PruneBySize drops the oldest versions. */
  lemma {:induction false} KeepBySizeDropsOldest(v: RuleSetEntries, cur: int, maxSize: int)
    requires WellFormed(v)
    ensures DropsOldest(v.entries, KeepBySize(v.entries, v.latest, cur, maxSize), cur, maxSize)
    decreases |v.entries|
  {
    var es := v.entries;
    KeepBySizeAccounting(es, v.latest, cur, maxSize);
    if |es| == 1 {
      assert es[0].uuid == v.latest;
      assert KeepBySize(es[1..], v.latest, cur, maxSize) == Kept([], cur, 0);
      assert es[..0] == [];
    } else if cur <= maxSize {
      assert es[..0] == [];
    } else {
      assert es[0].uuid != v.latest by {
        assert es[0].uuid != es[|es| - 1].uuid;
      }
      var tail := RuleSetEntries(v.latest, es[1..]);
      assert WellFormed(tail) by {
        assert es[1..][|es| - 2] == es[|es| - 1];
      }
      var next := cur - Utf8Len(es[0].rules);
      KeepBySizeDropsOldest(tail, next, maxSize);
      var r := KeepBySize(es[1..], v.latest, next, maxSize);
      assert KeepBySize(es, v.latest, cur, maxSize) == Kept(r.entries, r.size, r.pruned + 1);
      DropsOldestStep(es, r, cur, maxSize);
    }
  }

  datatype SizePrune = SizePrune(store: Store, size: int, pruned: nat)

  /** The outer loop of PruneBySize: visit the instances in the given iteration
      order, stopping as soon as the running total is within maxSize. */
  function PruneBySizeModel(m: Store, order: seq<string>, cur: int, maxSize: int): (r: SizePrune)
    ensures r.store.Keys == m.Keys
    decreases |order|
  {
    if order == [] || cur <= maxSize then SizePrune(m, cur, 0)
    else if order[0] !in m then PruneBySizeModel(m, order[1..], cur, maxSize)
    else
      var v := m[order[0]];
      var k := KeepBySize(v.entries, v.latest, cur, maxSize);
      var r := PruneBySizeModel(m[order[0] := RuleSetEntries(v.latest, k.entries)], order[1..], k.size, maxSize);
      SizePrune(r.store, r.size, k.pruned + r.pruned)
  }

  /** The running total and the pruned count agree with the cache's own sums. */
  lemma {:induction false} PruneBySizeAccounting(m: Store, order: seq<string>, cur: int, maxSize: int)
    ensures var r := PruneBySizeModel(m, order, cur, maxSize);
      r.size - TotalSizeOf(r.store) == cur - TotalSizeOf(m)
      && r.pruned == CountOf(m) - CountOf(r.store)
      && r.size <= cur
    decreases |order|
  {
    if order != [] && cur > maxSize && order[0] in m {
      var v := m[order[0]];
      var k := KeepBySize(v.entries, v.latest, cur, maxSize);
      var nv := RuleSetEntries(v.latest, k.entries);
      KeepBySizeAccounting(v.entries, v.latest, cur, maxSize);
      SumUpdate(m, order[0], nv, Bytes);
      SumUpdate(m, order[0], nv, Versions);
      PruneBySizeAccounting(m[order[0] := nv], order[1..], k.size, maxSize);
    } else if order != [] && cur > maxSize {
      PruneBySizeAccounting(m, order[1..], cur, maxSize);
    }
  }

  /** n keeps every instance of m and its latest marker, stays well-formed, and
      holds a trailing part of each instance's versions. */
  predicate ShrinksTo(m: Store, n: Store)
  {
    n.Keys == m.Keys && WellFormedStore(n)
    && forall k :: k in m ==> n[k].latest == m[k].latest && IsSuffix(n[k].entries, m[k].entries)
  }

  lemma ShrinksToSelf(m: Store)
    requires WellFormedStore(m)
    ensures ShrinksTo(m, m)
  {
    forall k | k in m ensures IsSuffix(m[k].entries, m[k].entries) {
      SuffixReflexive(m[k].entries);
    }
  }

  /** Replacing one instance's versions by a well-formed trailing part shrinks the cache. */
  lemma ShrinksToUpdate(m: Store, key: string, nv: RuleSetEntries)
    requires WellFormedStore(m) && key in m && WellFormed(nv)
    requires nv.latest == m[key].latest && IsSuffix(nv.entries, m[key].entries)
    ensures ShrinksTo(m, m[key := nv])
  {
    var n := m[key := nv];
    WellFormedStoreUpdate(m, key, nv);
    forall k | k in m ensures n[k].latest == m[k].latest && IsSuffix(n[k].entries, m[k].entries) {
      if k != key {
        SuffixReflexive(m[k].entries);
      }
    }
  }

  lemma WellFormedStoreUpdate(m: Store, key: string, nv: RuleSetEntries)
    requires WellFormedStore(m) && WellFormed(nv)
    ensures WellFormedStore(m[key := nv])
  {
  }

  lemma ShrinksToTransitive(a: Store, b: Store, c: Store)
    requires ShrinksTo(a, b) && ShrinksTo(b, c)
    ensures ShrinksTo(a, c)
  {
    forall k | k in a ensures IsSuffix(c[k].entries, a[k].entries) {
      SuffixTransitive(c[k].entries, b[k].entries, a[k].entries);
    }
  }

  /** The versions PruneBySize keeps for one instance still form a well-formed list. */
  lemma KeepBySizeWellFormed(v: RuleSetEntries, cur: int, maxSize: int)
    requires WellFormed(v)
    ensures var k := KeepBySize(v.entries, v.latest, cur, maxSize);
      WellFormed(RuleSetEntries(v.latest, k.entries)) && IsSuffix(k.entries, v.entries)
  {
    var k := KeepBySize(v.entries, v.latest, cur, maxSize);
    KeepBySizeDropsOldest(v, cur, maxSize);
    WellFormedDrop(v, k.pruned);
  }

  /** Dropping the oldest versions, but not all of them, keeps a list well-formed. */
  lemma WellFormedDrop(v: RuleSetEntries, p: nat)
    requires WellFormed(v) && p < |v.entries|
    ensures WellFormed(RuleSetEntries(v.latest, v.entries[p..])) && IsSuffix(v.entries[p..], v.entries)
  {
    var es := v.entries;
    var tail := es[p..];
    assert tail[|tail| - 1] == es[|es| - 1];
    forall i, j | 0 <= i < j < |tail| ensures tail[i].uuid != tail[j].uuid {
      assert tail[i] == es[p + i] && tail[j] == es[p + j];
    }
  }

  /** Each instance keeps its latest marker and a trailing part of its versions
      that still ends with the latest. */
  lemma {:induction false} PruneBySizeShape(m: Store, order: seq<string>, cur: int, maxSize: int)
    requires WellFormedStore(m)
    ensures ShrinksTo(m, PruneBySizeModel(m, order, cur, maxSize).store)
    decreases |order|
  {
    var r := PruneBySizeModel(m, order, cur, maxSize);
    if order == [] || cur <= maxSize {
      assert r.store == m;
      ShrinksToSelf(m);
    } else if order[0] in m {
      var v := m[order[0]];
      var k := KeepBySize(v.entries, v.latest, cur, maxSize);
      var nv := RuleSetEntries(v.latest, k.entries);
      var n := m[order[0] := nv];
      assert r.store == PruneBySizeModel(n, order[1..], k.size, maxSize).store;
      KeepBySizeWellFormed(v, cur, maxSize);
      ShrinksToUpdate(m, order[0], nv);
      PruneBySizeShape(n, order[1..], k.size, maxSize);
      ShrinksToTransitive(m, n, r.store);
    } else {
      assert r == PruneBySizeModel(m, order[1..], cur, maxSize);
      PruneBySizeShape(m, order[1..], cur, maxSize);
    }
  }

  /** Instances the iteration order does not reach are untouched. */
  lemma {:induction false} PruneBySizeFrame(m: Store, order: seq<string>, cur: int, maxSize: int, j: string)
    requires j in m && j !in order
    ensures PruneBySizeModel(m, order, cur, maxSize).store[j] == m[j]
    decreases |order|
  {
    if order != [] && cur > maxSize {
      assert j !in order[1..];
      if order[0] in m {
        var v := m[order[0]];
        var k := KeepBySize(v.entries, v.latest, cur, maxSize);
        PruneBySizeFrame(m[order[0] := RuleSetEntries(v.latest, k.entries)], order[1..], k.size, maxSize, j);
      } else {
        PruneBySizeFrame(m, order[1..], cur, maxSize, j);
      }
    }
  }

  /** After PruneBySize over an iteration order that lists every instance once,
      the total is within maxSize, or only latest versions are left. */
  lemma {:induction false} PruneBySizeReachesLimit(m: Store, order: seq<string>, cur: int, maxSize: int)
    requires WellFormedStore(m) && Distinct(order)
    requires forall k :: k in order ==> k in m
    ensures var r := PruneBySizeModel(m, order, cur, maxSize);
      r.size <= maxSize || forall k :: k in order ==> |r.store[k].entries| == 1
    decreases |order|
  {
    var r := PruneBySizeModel(m, order, cur, maxSize);
    if order != [] && cur > maxSize {
      var v := m[order[0]];
      var k := KeepBySize(v.entries, v.latest, cur, maxSize);
      var nv := RuleSetEntries(v.latest, k.entries);
      var n := m[order[0] := nv];
      assert r == SizePrune(PruneBySizeModel(n, order[1..], k.size, maxSize).store,
        PruneBySizeModel(n, order[1..], k.size, maxSize).size, k.pruned + PruneBySizeModel(n, order[1..], k.size, maxSize).pruned);
      KeepBySizeDropsOldest(v, cur, maxSize);
      KeepBySizeWellFormed(v, cur, maxSize);
      assert WellFormedStore(n);
      assert Distinct(order[1..]) by {
        forall i, j | 0 <= i < j < |order[1..]| ensures order[1..][i] != order[1..][j] {
          assert order[1..][i] == order[i + 1] && order[1..][j] == order[j + 1];
        }
      }
      PruneBySizeReachesLimit(n, order[1..], k.size, maxSize);
      PruneBySizeAccounting(n, order[1..], k.size, maxSize);
      if r.size > maxSize {
        assert k.size > maxSize;
        assert |k.entries| == 1;
        assert order[0] !in order[1..] by {
          forall i | 0 <= i < |order[1..]| ensures order[1..][i] != order[0] {
            assert order[1..][i] == order[i + 1];
          }
        }
        PruneBySizeFrame(n, order[1..], k.size, maxSize, order[0]);
        forall j | j in order ensures |r.store[j].entries| == 1 {
          if j != order[0] {
            assert j in order[1..] by {
              var i :| 0 <= i < |order| && order[i] == j;
              assert order[1..][i - 1] == j;
            }
          }
        }
      }
    }
  }

  /** PruneBySize does not change what is served for any instance. */
  lemma PruneBySizeKeepsLatest(m: Store, order: seq<string>, cur: int, maxSize: int)
    requires WellFormedStore(m)
    ensures forall k :: Lookup(PruneBySizeModel(m, order, cur, maxSize).store, k) == Lookup(m, k)
  {
    var r := PruneBySizeModel(m, order, cur, maxSize);
    PruneBySizeShape(m, order, cur, maxSize);
    forall k ensures Lookup(r.store, k) == Lookup(m, k) {
      LookupWellFormed(m, k);
      LookupWellFormed(r.store, k);
      if k in m {
        var a := r.store[k].entries;
        var b := m[k].entries;
        assert a[|a| - 1] == b[|b| - 1];
      }
    }
  }

  /** PruneBySize on a cache already within maxSize changes nothing. */
  lemma PruneBySizeWithinLimit(m: Store, order: seq<string>, maxSize: int)
    requires TotalSizeOf(m) <= maxSize
    ensures PruneBySizeModel(m, order, TotalSizeOf(m), maxSize) == SizePrune(m, TotalSizeOf(m), 0)
  {
  }

  /** A duplicate-free listing of exactly the instances of the cache: the order in
      which Go's map iteration happens to visit them. */
  predicate IsEnumeration(order: seq<string>, keys: set<string>)
  {
    Distinct(order) && (forall k :: k in order ==> k in keys) && (forall k :: k in keys ==> k in order)
  }

  /** The instances in todo as in a, the others as in b. */
  function Overlay(a: Store, b: Store, todo: set<string>): (r: Store)
    requires a.Keys == b.Keys
    ensures r.Keys == a.Keys
  {
    map k | k in a :: if k in todo then a[k] else b[k]
  }

  lemma OverlayStep(a: Store, b: Store, todo: set<string>, k: string)
    requires a.Keys == b.Keys && k in todo && todo <= a.Keys
    ensures Overlay(a, b, todo - {k}) == Overlay(a, b, todo)[k := b[k]]
    ensures Overlay(a, b, todo)[k] == a[k]
    ensures Overlay(a, b, {}) == b
  {
  }

  // ---------------------------------------------------------------------------
  // The cache object
  // ---------------------------------------------------------------------------

  class RuleSetCache {
    var entries: Store

    ghost predicate Valid()
      reads this
    {
      WellFormedStore(entries)
    }

    /** NewRuleSetCache */
    constructor ()
      ensures Valid() && entries == map[]
    {
      entries := map[];
    }

    /** The latest version of an instance, if any. */
    method Get(instance: string) returns (entry: Option<RuleSetEntry>)
      ensures entry == Lookup(entries, instance)
      ensures Valid() ==> (entry.Some? <==> instance in entries)
      ensures Valid() && instance in entries ==>
        entry == Some(entries[instance].entries[|entries[instance].entries| - 1])
    {
      if Valid() {
        LookupWellFormed(entries, instance);
      }
      if instance !in entries || |entries[instance].entries| == 0 {
        return None;
      }
      var versions := entries[instance];
      var i := 0;
      while i < |versions.entries|
        invariant 0 <= i <= |versions.entries|
        invariant FirstWithUuid(versions.entries[i..], versions.latest) == Lookup(entries, instance)
      {
        assert versions.entries[i..][1..] == versions.entries[i + 1..];
        if versions.entries[i].uuid == versions.latest {
          return Some(versions.entries[i]);
        }
        i := i + 1;
      }
      return None;
    }

    /** Store rules for an instance as a new latest version. The UUID and the
        time are the values uuid.New() and time.Now() would give. */
    method Put(instance: string, rules: string, uuid: string, now: int)
      requires Valid() && UuidUnused(entries, instance, uuid)
      modifies this
      ensures Valid()
      ensures entries == PutModel(old(entries), instance, RuleSetEntry(uuid, now, rules))
    {
      var newEntry := RuleSetEntry(uuid, now, rules);
      PutModelFacts(entries, instance, newEntry);
      if instance !in entries {
        entries := entries[instance := RuleSetEntries(newEntry.uuid, [newEntry])];
      } else {
        entries := entries[instance := RuleSetEntries(newEntry.uuid, entries[instance].entries + [newEntry])];
      }
    }

    /** All instance names, each once, in map iteration order. */
    method ListKeys() returns (keys: seq<string>)
      ensures IsEnumeration(keys, entries.Keys)
    {
      keys := [];
      var todo := entries.Keys;
      while todo != {}
        invariant todo <= entries.Keys
        invariant Distinct(keys)
        invariant forall k :: k in keys ==> k in entries && k !in todo
        invariant forall k :: k in entries ==> k in keys || k in todo
        decreases todo
      {
        var k :| k in todo;
        keys := keys + [k];
        todo := todo - {k};
      }
    }

    /** Bytes of rules over all versions of all instances. */
    method TotalSize() returns (size: int)
      ensures size == TotalSizeOf(entries)
    {
      size := 0;
      var todo := entries.Keys;
      while todo != {}
        invariant todo <= entries.Keys
        invariant size + SumOver(entries, todo, Bytes) == TotalSizeOf(entries)
        decreases todo
      {
        var instance :| instance in todo;
        SumOverRemove(entries, todo, Bytes, instance);
        var es := entries[instance].entries;
        var i := 0;
        ghost var before := size;
        while i < |es|
          invariant 0 <= i <= |es|
          invariant size + EntriesSize(es[i..]) == before + EntriesSize(es)
        {
          assert es[i..][1..] == es[i + 1..];
          size := size + Utf8Len(es[i].rules);
          i := i + 1;
        }
        todo := todo - {instance};
      }
    }

    /** Overwrite the timestamp of the version at index, when both exist. */
    method SetEntryTimestamp(instance: string, index: int, timestamp: int)
      requires Valid()
      modifies this
      ensures Valid()
      ensures instance in old(entries) && 0 <= index < |old(entries)[instance].entries| ==>
        var v := old(entries)[instance];
        entries == old(entries)[instance := v.(entries := v.entries[index := v.entries[index].(timestamp := timestamp)])]
      ensures !(instance in old(entries) && 0 <= index < |old(entries)[instance].entries|) ==> entries == old(entries)
    {
      if instance in entries {
        var v := entries[instance];
        if 0 <= index < |v.entries| {
          var es := v.entries[index := v.entries[index].(timestamp := timestamp)];
          assert forall i :: 0 <= i < |es| ==> es[i].uuid == v.entries[i].uuid;
          entries := entries[instance := v.(entries := es)];
        }
      }
    }

    /** Number of versions held for an instance, 0 for an unknown one. */
    method CountEntries(instance: string) returns (n: int)
      ensures instance in entries ==> n == |entries[instance].entries|
      ensures Valid() && instance in entries ==> n >= 1
      ensures instance !in entries ==> n == 0
    {
      if instance in entries {
        return |entries[instance].entries|;
      }
      return 0;
    }

    /** Remove every version older than maxAge at time now, except the latest. */
    method Prune(maxAge: int, now: int) returns (pruned: int)
      requires Valid()
      modifies this
      ensures Valid()
      ensures entries == PruneByAgeModel(old(entries), now, maxAge)
      ensures pruned == CountOf(old(entries)) - CountOf(entries)
    {
      if |entries| == 0 {
        assert entries == PruneByAgeModel(entries, now, maxAge);
        return 0;
      }
      pruned := 0;
      ghost var start := entries;
      ghost var target := PruneByAgeModel(start, now, maxAge);
      var todo := entries.Keys;
      while todo != {}
        invariant todo <= start.Keys
        invariant entries == Overlay(start, target, todo)
        invariant pruned == CountOf(start) - CountOf(entries)
        decreases todo
      {
        var instance :| instance in todo;
        var versions := entries[instance];
        var newEntries, dropped := PruneVersionsByAge(versions, now, maxAge);
        pruned := pruned + dropped;
        SumUpdate(entries, instance, RuleSetEntries(versions.latest, newEntries), Versions);
        OverlayStep(start, target, todo, instance);
        entries := entries[instance := RuleSetEntries(versions.latest, newEntries)];
        todo := todo - {instance};
      }
      assert entries == target;
      PruneByAgeModelFacts(start, now, maxAge);
    }

    /** Remove the oldest versions, instance by instance in the given map
        iteration order, until the total is within maxSize; latest versions stay. */
    method PruneBySize(maxSize: int, order: seq<string>) returns (pruned: int)
      requires Valid() && IsEnumeration(order, entries.Keys)
      modifies this
      ensures Valid()
      ensures var r := PruneBySizeModel(old(entries), order, TotalSizeOf(old(entries)), maxSize);
        entries == r.store && pruned == r.pruned
    {
      var currentSize := TotalSize();
      ghost var r := PruneBySizeModel(entries, order, currentSize, maxSize);
      PruneBySizeShape(entries, order, currentSize, maxSize);
      if currentSize <= maxSize {
        assert r == SizePrune(entries, currentSize, 0);
        return 0;
      }
      entries, pruned := PruneInstancesBySize(entries, order, currentSize, maxSize);
      assert entries == r.store;
    }
  }

  /** The outer loop of PruneBySize, over the instances in iteration order,
      starting from the running total currentSize. */
  method PruneInstancesBySize(m: Store, order: seq<string>, currentSize: int, maxSize: int)
    returns (n: Store, pruned: nat)
    requires forall k :: k in order ==> k in m
    ensures n == PruneBySizeModel(m, order, currentSize, maxSize).store
    ensures pruned == PruneBySizeModel(m, order, currentSize, maxSize).pruned
  {
    ghost var R := PruneBySizeModel(m, order, currentSize, maxSize);
    n := m;
    pruned := 0;
    var size := currentSize;
    var j := 0;
    while j < |order|
      invariant 0 <= j <= |order|
      invariant n.Keys == m.Keys
      invariant PruneBySizeModel(n, order[j..], size, maxSize).store == R.store
      invariant pruned + PruneBySizeModel(n, order[j..], size, maxSize).pruned == R.pruned
    {
      if size <= maxSize {
        break;
      }
      var instance := order[j];
      var versions := n[instance];
      var newEntries, newSize, dropped := PruneVersionsBySize(versions, size, maxSize);
      PruneBySizeModelStep(n, order[j..], size, maxSize);
      assert order[j..][1..] == order[j + 1..];
      n := n[instance := RuleSetEntries(versions.latest, newEntries)];
      size := newSize;
      pruned := pruned + dropped;
      j := j + 1;
    }
    assert j == |order| || size <= maxSize;
    assert PruneBySizeModel(n, order[j..], size, maxSize) == SizePrune(n, size, 0);
  }

  /** One step of the outer loop of PruneBySize. */
  lemma PruneBySizeModelStep(m: Store, order: seq<string>, cur: int, maxSize: int)
    requires order != [] && cur > maxSize && order[0] in m
    ensures var v := m[order[0]];
      var k := KeepBySize(v.entries, v.latest, cur, maxSize);
      var r := PruneBySizeModel(m[order[0] := RuleSetEntries(v.latest, k.entries)], order[1..], k.size, maxSize);
      PruneBySizeModel(m, order, cur, maxSize) == SizePrune(r.store, r.size, k.pruned + r.pruned)
  {
  }

  /** The inner loop of Prune over the versions of one instance. */
  method PruneVersionsByAge(versions: RuleSetEntries, now: int, maxAge: int) returns (newEntries: seq<RuleSetEntry>, dropped: int)
    ensures newEntries == KeepByAge(versions.entries, versions.latest, now, maxAge)
    ensures dropped == |versions.entries| - |newEntries|
  {
    var es, latest := versions.entries, versions.latest;
    newEntries := [];
    dropped := 0;
    var i := 0;
    while i < |es|
      invariant 0 <= i <= |es|
      invariant newEntries + KeepByAge(es[i..], latest, now, maxAge) == KeepByAge(es, latest, now, maxAge)
      invariant dropped == i - |newEntries|
    {
      ghost var rest := KeepByAge(es[i + 1..], latest, now, maxAge);
      KeepByAgeStep(es, i, latest, now, maxAge);
      var entry := es[i];
      if entry.uuid == latest {
        assert newEntries + ([entry] + rest) == (newEntries + [entry]) + rest;
        newEntries := newEntries + [entry];
      } else if now - entry.timestamp <= maxAge {
        assert newEntries + ([entry] + rest) == (newEntries + [entry]) + rest;
        newEntries := newEntries + [entry];
      } else {
        dropped := dropped + 1;
      }
      i := i + 1;
    }
    assert es[|es|..] == [];
  }

  /** The inner loop of PruneBySize over the versions of one instance, starting
      from the running total currentSize. */
  method PruneVersionsBySize(versions: RuleSetEntries, currentSize: int, maxSize: int)
    returns (newEntries: seq<RuleSetEntry>, newSize: int, dropped: nat)
    ensures newEntries == KeepBySize(versions.entries, versions.latest, currentSize, maxSize).entries
    ensures newSize == KeepBySize(versions.entries, versions.latest, currentSize, maxSize).size
    ensures dropped == KeepBySize(versions.entries, versions.latest, currentSize, maxSize).pruned
  {
    newEntries := [];
    newSize := currentSize;
    dropped := 0;
    ghost var K := KeepBySize(versions.entries, versions.latest, currentSize, maxSize);
    var i := 0;
    while i < |versions.entries|
      invariant 0 <= i <= |versions.entries|
      invariant newEntries + KeepBySize(versions.entries[i..], versions.latest, newSize, maxSize).entries == K.entries
      invariant KeepBySize(versions.entries[i..], versions.latest, newSize, maxSize).size == K.size
      invariant dropped + KeepBySize(versions.entries[i..], versions.latest, newSize, maxSize).pruned == K.pruned
    {
      assert versions.entries[i..][1..] == versions.entries[i + 1..];
      var entry := versions.entries[i];
      if entry.uuid == versions.latest {
        newEntries := newEntries + [entry];
      } else if newSize > maxSize {
        newSize := newSize - Utf8Len(entry.rules);
        dropped := dropped + 1;
      } else {
        newEntries := newEntries + [entry];
      }
      i := i + 1;
    }
  }
}
