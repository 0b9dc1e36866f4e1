/** Key-sorted sequences of entries: what the live prefix of the fixed-capacity map holds, and how its
    operations refine those of a bounded map. Keys are naturals: the hashed key bytes read as one
    big-endian number, whose order is the order of the bytes. */
module SortedEntries {
  import opened Options

  datatype Entry<V> = Entry(key: nat, value: V)

  datatype InsertResult<V> = Inserted(previous: Option<V>) | AlreadyExist | ExceedMaxLengthLimit

  datatype RemoveResult<V> = Removed(value: V) | Absent | OutOfBounds

  predicate Sorted<V>(s: seq<Entry<V>>) {
    forall i, j :: 0 <= i < j < |s| ==> s[i].key < s[j].key
  }

  /** The number of entries whose key is below the given one. */
  function Rank<V>(s: seq<Entry<V>>, key: nat): (i: nat)
    requires Sorted(s)
    ensures i <= |s|
    ensures forall j :: 0 <= j < i ==> s[j].key < key
    ensures forall j :: i <= j < |s| ==> s[j].key >= key
  {
    if s == [] || key <= s[0].key then 0 else 1 + Rank(s[1..], key)
  }

  predicate Has<V>(s: seq<Entry<V>>, key: nat)
    requires Sorted(s)
  {
    Rank(s, key) < |s| && s[Rank(s, key)].key == key
  }

  lemma {:induction false} RankUnique<V>(s: seq<Entry<V>>, key: nat, i: nat)
    requires Sorted(s) && i <= |s|
    requires i > 0 ==> s[i - 1].key < key
    requires i < |s| ==> s[i].key >= key
    ensures Rank(s, key) == i
  {
    if s != [] && s[0].key < key {
      RankUnique(s[1..], key, i - 1);
    }
  }

  /** The value stored for a key, if any. */
  function Lookup<V>(s: seq<Entry<V>>, key: nat): Option<V>
    requires Sorted(s)
  {
    if Has(s, key) then Some(s[Rank(s, key)].value) else None
  }

  lemma LookupAt<V>(s: seq<Entry<V>>, i: nat)
    requires Sorted(s) && i < |s|
    ensures Rank(s, s[i].key) == i && Lookup(s, s[i].key) == Some(s[i].value)
  {
    RankUnique(s, s[i].key, i);
  }

  function ToMap<V>(s: seq<Entry<V>>): map<nat, V> {
    if s == [] then map[] else ToMap(s[1..])[s[0].key := s[0].value]
  }

  function Find<V>(m: map<nat, V>, key: nat): Option<V> {
    if key in m then Some(m[key]) else None
  }

  lemma LookupRest<V>(s: seq<Entry<V>>, key: nat)
    requires Sorted(s) && s != []
    ensures Lookup(s, key) == if key == s[0].key then Some(s[0].value) else Lookup(s[1..], key)
    ensures Lookup(s[1..], s[0].key) == None
  {
    RankUnique(s[1..], s[0].key, 0);
    if key < s[0].key {
      RankUnique(s[1..], key, 0);
    }
  }

  /** The map of a sorted sequence holds what looking up its keys finds. */
  lemma {:induction false} ToMapExact<V>(s: seq<Entry<V>>, key: nat)
    requires Sorted(s)
    ensures Find(ToMap(s), key) == Lookup(s, key)
  {
    if s != [] {
      ToMapExact(s[1..], key);
      LookupRest(s, key);
    }
  }

  lemma {:induction false} ToMapSize<V>(s: seq<Entry<V>>)
    requires Sorted(s)
    ensures |ToMap(s)| == |s|
  {
    if s != [] {
      ToMapSize(s[1..]);
      LookupRest(s, s[0].key);
      ToMapExact(s[1..], s[0].key);
      assert ToMap(s).Keys == ToMap(s[1..]).Keys + {s[0].key};
    }
  }

  /** The entries from `i` on moved up by one, and a new entry in their place. */
  function Added<V>(s: seq<Entry<V>>, i: nat, e: Entry<V>): seq<Entry<V>>
    requires i <= |s|
  {
    s[..i] + [e] + s[i..]
  }

  /** Insertion as the source performs it: replace in place, or shift and insert, or refuse. */
  function Put<V>(
    s: seq<Entry<V>>, capacity: nat, key: nat, value: V, mustBeNew: bool): (seq<Entry<V>>, InsertResult<V>)
    requires Sorted(s)
  {
    var i := Rank(s, key);
    if Has(s, key) then
      if mustBeNew then (s, AlreadyExist)
      else (s[i := Entry(key, value)], Inserted(Some(s[i].value)))
    else if |s| >= capacity then (s, ExceedMaxLengthLimit)
    else (Added(s, i, Entry(key, value)), Inserted(None))
  }

  /** Removal as the source performs it: with the array full, shifting the last entry reads past its
      end. */
  function Take<V>(s: seq<Entry<V>>, capacity: nat, key: nat): (seq<Entry<V>>, RemoveResult<V>)
    requires Sorted(s)
  {
    var i := Rank(s, key);
    if !Has(s, key) then (s, Absent)
    else if |s| == capacity then (s, OutOfBounds)
    else (s[..i] + s[i + 1..], Removed(s[i].value))
  }

  /** Insertion into a map of bounded size. */
  function PutMap<V>(
    m: map<nat, V>, capacity: nat, key: nat, value: V, mustBeNew: bool): (map<nat, V>, InsertResult<V>) {
    if key in m then
      if mustBeNew then (m, AlreadyExist) else (m[key := value], Inserted(Some(m[key])))
    else if |m| >= capacity then (m, ExceedMaxLengthLimit)
    else (m[key := value], Inserted(None))
  }

  function TakeMap<V>(m: map<nat, V>, key: nat): (map<nat, V>, RemoveResult<V>) {
    if key in m then (m - {key}, Removed(m[key])) else (m, Absent)
  }

  lemma SameMap<V>(a: map<nat, V>, b: map<nat, V>)
    requires forall k :: Find(a, k) == Find(b, k)
    ensures a == b
  {
    forall k | k in a ensures k in b && a[k] == b[k] {
      assert Find(a, k) == Find(b, k);
    }
    forall k | k in b ensures k in a {
      assert Find(a, k) == Find(b, k);
    }
  }

  lemma PutKeepsSorted<V>(s: seq<Entry<V>>, capacity: nat, key: nat, value: V, mustBeNew: bool)
    requires Sorted(s) && |s| <= capacity
    ensures Sorted(Put(s, capacity, key, value, mustBeNew).0)
    ensures |Put(s, capacity, key, value, mustBeNew).0| <= capacity
  {
  }

  lemma ReplacedLookup<V>(s: seq<Entry<V>>, key: nat, value: V, k: nat)
    requires Sorted(s) && Has(s, key)
    ensures var t := s[Rank(s, key) := Entry(key, value)];
            Sorted(t) && Lookup(t, k) == if k == key then Some(value) else Lookup(s, k)
  {
    var t := s[Rank(s, key) := Entry(key, value)];
    RankUnique(t, k, Rank(s, k));
    if k != key && Rank(s, k) == Rank(s, key) {
      assert s[Rank(s, k)].key == key;
    }
  }

  lemma AddedSorted<V>(s: seq<Entry<V>>, key: nat, value: V)
    requires Sorted(s) && !Has(s, key)
    ensures Sorted(Added(s, Rank(s, key), Entry(key, value)))
  {
  }

  lemma AddedAt<V>(s: seq<Entry<V>>, i: nat, e: Entry<V>, j: nat)
    requires i <= |s| && j <= |s|
    ensures |Added(s, i, e)| == |s| + 1
    ensures Added(s, i, e)[j] == if j < i then s[j] else if j == i then e else s[j - 1]
  {
  }

  lemma {:induction false} RankMono<V>(s: seq<Entry<V>>, low: nat, high: nat)
    requires Sorted(s) && low <= high
    ensures Rank(s, low) <= Rank(s, high)
  {
    if s != [] && s[0].key < low {
      RankMono(s[1..], low, high);
    }
  }

  /** Where a key is once the entry is added: keys above it move up by one. */
  lemma AddedRank<V>(s: seq<Entry<V>>, key: nat, value: V, k: nat)
    requires Sorted(s) && !Has(s, key)
    ensures var t := Added(s, Rank(s, key), Entry(key, value));
            Sorted(t) && Rank(t, k) == if k <= key then Rank(s, k) else Rank(s, k) + 1
  {
    AddedSorted(s, key, value);
    hide Added, Sorted, Rank, Has;
    var i, e, at := Rank(s, key), Entry(key, value), if k <= key then Rank(s, k) else Rank(s, k) + 1;
    RankMono(s, if k <= key then k else key, if k <= key then key else k);
    if at > 0 {
      AddedAt(s, i, e, at - 1);
    }
    if at <= |s| {
      AddedAt(s, i, e, at);
    }
    AddedAt(s, i, e, 0);
    RankUnique(Added(s, i, e), k, at);
  }

  lemma AddedItself<V>(s: seq<Entry<V>>, key: nat, value: V)
    requires Sorted(s) && !Has(s, key)
    ensures var t := Added(s, Rank(s, key), Entry(key, value));
            Sorted(t) && Lookup(t, key) == Some(value)
  {
    AddedRank(s, key, value, key);
    hide Added, Sorted, Rank;
    AddedAt(s, Rank(s, key), Entry(key, value), Rank(s, key));
  }

  /** What the entry at `i` holds for the key `k`. */
  function FoundAt<V>(s: seq<Entry<V>>, k: nat, i: nat): Option<V>
    requires i <= |s|
  {
    if i < |s| && s[i].key == k then Some(s[i].value) else None
  }

  lemma LookupFound<V>(s: seq<Entry<V>>, k: nat)
    requires Sorted(s)
    ensures Lookup(s, k) == FoundAt(s, k, Rank(s, k))
  {
    hide Sorted, Rank;
  }

  lemma AddedFound<V>(s: seq<Entry<V>>, i: nat, e: Entry<V>, k: nat, at: nat)
    requires i <= |s| && at <= |s| && k != e.key
    requires if k < e.key then at <= i && (i < |s| ==> k < s[i].key) else i <= at
    ensures |Added(s, i, e)| == |s| + 1
    ensures FoundAt(Added(s, i, e), k, if k < e.key then at else at + 1) == FoundAt(s, k, at)
  {
    AddedAt(s, i, e, at);
    hide Added;
    if k > e.key && at < |s| {
      AddedAt(s, i, e, at + 1);
    }
  }

  lemma AddedOther<V>(s: seq<Entry<V>>, key: nat, value: V, k: nat)
    requires Sorted(s) && !Has(s, key) && k != key
    ensures var t := Added(s, Rank(s, key), Entry(key, value));
            Sorted(t) && Lookup(t, k) == Lookup(s, k)
  {
    AddedRank(s, key, value, k);
    hide Added, Sorted, Rank, Has, Lookup, FoundAt;
    var i, e := Rank(s, key), Entry(key, value);
    RankMono(s, if k < key then k else key, if k < key then key else k);
    LookupFound(s, k);
    AddedFound(s, i, e, k, Rank(s, k));
    LookupFound(Added(s, i, e), k);
  }

  /** After a successful insertion the key has the new value and every other key what it had. */
  lemma PutLookup<V>(s: seq<Entry<V>>, capacity: nat, key: nat, value: V, mustBeNew: bool, k: nat)
    requires Sorted(s) && |s| <= capacity && Put(s, capacity, key, value, mustBeNew).1.Inserted?
    ensures var t := Put(s, capacity, key, value, mustBeNew).0;
            Sorted(t) && Lookup(t, k) == if k == key then Some(value) else Lookup(s, k)
  {
    hide Sorted, Has, Rank, Lookup;
    if Has(s, key) {
      ReplacedLookup(s, key, value, k);
    } else {
      AddedItself(s, key, value);
      if k != key {
        AddedOther(s, key, value, k);
      }
    }
  }

  /** Inserting into the sorted entries is inserting into the map they hold, whichever of the four
      outcomes it has; every other entry stays. */
  lemma PutRefines<V>(s: seq<Entry<V>>, capacity: nat, key: nat, value: V, mustBeNew: bool)
    requires Sorted(s) && |s| <= capacity
    ensures var (t, r) := Put(s, capacity, key, value, mustBeNew);
            && Sorted(t) && |t| <= capacity
            && (ToMap(t), r) == PutMap(ToMap(s), capacity, key, value, mustBeNew)
  {
    hide Sorted, ToMap, Rank;
    PutKeepsSorted(s, capacity, key, value, mustBeNew);
    ToMapExact(s, key);
    ToMapSize(s);
    var (t, r) := Put(s, capacity, key, value, mustBeNew);
    if r.Inserted? {
      var m := ToMap(s)[key := value];
      forall k ensures Find(ToMap(t), k) == Find(m, k) {
        PutLookup(s, capacity, key, value, mustBeNew, k);
        ToMapExact(s, k);
        ToMapExact(t, k);
      }
      SameMap(ToMap(t), m);
    }
  }

  lemma TakeKeepsSorted<V>(s: seq<Entry<V>>, capacity: nat, key: nat)
    requires Sorted(s)
    ensures Sorted(Take(s, capacity, key).0)
  {
  }

  lemma TakeLookup<V>(s: seq<Entry<V>>, capacity: nat, key: nat, k: nat)
    requires Sorted(s) && Take(s, capacity, key).1.Removed?
    ensures var t := Take(s, capacity, key).0;
            Sorted(t) && Lookup(t, k) == if k == key then None else Lookup(s, k)
  {
    TakeKeepsSorted(s, capacity, key);
    RankUnique(Take(s, capacity, key).0, k, if k <= key then Rank(s, k) else Rank(s, k) - 1);
  }

  /** Removing from the sorted entries is removing from the map they hold, unless the key is present and
      the array is full; in exactly that case the shift reads out of bounds. */
  lemma TakeRefines<V>(s: seq<Entry<V>>, capacity: nat, key: nat)
    requires Sorted(s) && |s| <= capacity
    ensures var (t, r) := Take(s, capacity, key);
            && Sorted(t) && |t| <= capacity
            && ((ToMap(t), r) == TakeMap(ToMap(s), key) <==> !(key in ToMap(s) && |ToMap(s)| == capacity))
            && (r == OutOfBounds <==> key in ToMap(s) && |ToMap(s)| == capacity)
  {
    hide Sorted, ToMap, Rank;
    TakeKeepsSorted(s, capacity, key);
    ToMapExact(s, key);
    ToMapSize(s);
    var (t, r) := Take(s, capacity, key);
    if r.Removed? {
      var m := ToMap(s) - {key};
      forall k ensures Find(ToMap(t), k) == Find(m, k) {
        TakeLookup(s, capacity, key, k);
        ToMapExact(s, k);
        ToMapExact(t, k);
      }
      SameMap(ToMap(t), m);
    }
  }

  /** Equal maps have the same smallest entry and, without it, are equal again. */
  lemma SameFirst<V>(s: seq<Entry<V>>, t: seq<Entry<V>>)
    requires Sorted(s) && Sorted(t) && s != [] && t != [] && ToMap(s) == ToMap(t)
    ensures s[0] == t[0]
  {
    hide ToMap;
    LookupAt(s, 0);
    LookupAt(t, 0);
    ToMapExact(s, s[0].key);
    ToMapExact(t, s[0].key);
    ToMapExact(s, t[0].key);
    ToMapExact(t, t[0].key);
  }

  lemma WithoutFirst<V>(s: seq<Entry<V>>)
    requires Sorted(s) && s != []
    ensures ToMap(s[1..]) == ToMap(s) - {s[0].key}
  {
    LookupRest(s, s[0].key);
    ToMapExact(s[1..], s[0].key);
  }

  /** The entries are determined by the map: equal maps are stored identically. */
  lemma {:induction false} CanonicalForm<V>(s: seq<Entry<V>>, t: seq<Entry<V>>)
    requires Sorted(s) && Sorted(t) && ToMap(s) == ToMap(t)
    ensures s == t
  {
    hide ToMap;
    ToMapSize(s);
    ToMapSize(t);
    if s != [] {
      SameFirst(s, t);
      WithoutFirst(s);
      WithoutFirst(t);
      CanonicalForm(s[1..], t[1..]);
      assert s == [s[0]] + s[1..] && t == [t[0]] + t[1..];
    }
  }

  datatype Operation<V> = DoPut(key: nat, value: V, mustBeNew: bool) | DoTake(key: nat) | DoClear

  /** The entries after a sequence of operations, as long as none of them reads out of bounds. */
  function Replay<V>(s: seq<Entry<V>>, capacity: nat, ops: seq<Operation<V>>): Option<seq<Entry<V>>>
    requires Sorted(s) && |s| <= capacity
    decreases |ops|
  {
    if ops == [] then Some(s)
    else
      match ops[0]
      case DoPut(key, value, mustBeNew) =>
        PutKeepsSorted(s, capacity, key, value, mustBeNew);
        Replay(Put(s, capacity, key, value, mustBeNew).0, capacity, ops[1..])
      case DoTake(key) =>
        TakeKeepsSorted(s, capacity, key);
        if Take(s, capacity, key).1 == OutOfBounds then None
        else Replay(Take(s, capacity, key).0, capacity, ops[1..])
      case DoClear => Replay([], capacity, ops[1..])
  }

  /** The map after the same operations; removal from a full map is the one that is not available. */
  function ReplayMap<V>(m: map<nat, V>, capacity: nat, ops: seq<Operation<V>>): Option<map<nat, V>>
    decreases |ops|
  {
    if ops == [] then Some(m)
    else
      match ops[0]
      case DoPut(key, value, mustBeNew) => ReplayMap(PutMap(m, capacity, key, value, mustBeNew).0, capacity, ops[1..])
      case DoTake(key) =>
        if key in m && |m| == capacity then None else ReplayMap(TakeMap(m, key).0, capacity, ops[1..])
      case DoClear => ReplayMap(map[], capacity, ops[1..])
  }

  /** Any sequence of insertions, replacements, refused insertions, removals and clears on the sorted
      entries is the same sequence on the map, and keeps the entries sorted and within capacity. */
  lemma {:induction false} ReplayRefines<V>(s: seq<Entry<V>>, capacity: nat, ops: seq<Operation<V>>)
    requires Sorted(s) && |s| <= capacity
    ensures var r := Replay(s, capacity, ops);
            && (r.Some? <==> ReplayMap(ToMap(s), capacity, ops).Some?)
            && (r.Some? ==> Sorted(r.value) && |r.value| <= capacity
                            && ReplayMap(ToMap(s), capacity, ops) == Some(ToMap(r.value)))
    decreases |ops|
  {
    if ops != [] {
      match ops[0]
      case DoPut(key, value, mustBeNew) =>
        PutRefines(s, capacity, key, value, mustBeNew);
        ReplayRefines(Put(s, capacity, key, value, mustBeNew).0, capacity, ops[1..]);
      case DoTake(key) =>
        TakeRefines(s, capacity, key);
        if Take(s, capacity, key).1 != OutOfBounds {
          ReplayRefines(Take(s, capacity, key).0, capacity, ops[1..]);
        }
      case DoClear =>
        var none: seq<Entry<V>> := [];
        ReplayRefines(none, capacity, ops[1..]);
    }
  }

  /** A full map of one entry cannot give that entry up. */
  lemma RemoveFromFullFails<V>(key: nat, value: V)
    ensures Take([Entry(key, value)], 1, key).1 == OutOfBounds
  {
    LookupAt([Entry(key, value)], 0);
  }
}
