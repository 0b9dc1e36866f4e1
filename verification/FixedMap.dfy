/** The sorted fixed-capacity array map (`fixed_map.rs`), in place. */
module FixedMap {
  import opened Options
  import opened SortedEntries

  class FixedMap<V> {
    const blank: V
    const data: array<Entry<V>>
    var count: nat

    /** The live entries. */
    function Entries(): seq<Entry<V>>
      requires count <= data.Length
      reads this, data
    {
      data[..count]
    }

    /** The live entries are sorted and every other entry is blank. */
    ghost predicate Valid()
      reads this, data
    {
      && count <= data.Length
      && Sorted(Entries())
      && forall i :: count <= i < data.Length ==> data[i] == Entry(0, blank)
    }

    /** The map that is stored. */
    function Contents(): map<nat, V>
      requires Valid()
      reads this, data
    {
      ToMap(Entries())
    }

    constructor (capacity: nat, blank: V)
      ensures Valid() && fresh(data) && data.Length == capacity && this.blank == blank
      ensures Contents() == map[]
    {
      this.blank := blank;
      data := new Entry<V>[capacity](_ => Entry(0, blank));
      count := 0;
    }

    /** The index of the key, or where it would have to be inserted. */
    method BinarySearch(key: nat) returns (found: bool, index: nat)
      requires Valid()
      ensures index == Rank(Entries(), key)
      ensures found == Has(Entries(), key)
    {
      var low, high := 0, count;
      while low < high
        invariant low <= high <= count
        invariant forall i :: 0 <= i < low ==> data[i].key < key
        invariant forall i :: high <= i < count ==> key <= data[i].key
      {
        var mid := (low + high) / 2;
        if data[mid].key < key {
          low := mid + 1;
        } else {
          high := mid;
        }
      }
      RankUnique(Entries(), key, low);
      return low < count && data[low].key == key, low;
    }

    method Get(key: nat) returns (r: Option<V>)
      requires Valid()
      ensures r == Find(Contents(), key)
    {
      ToMapExact(Entries(), key);
      var found, index := BinarySearch(key);
      if found {
        return Some(data[index].value);
      }
      return None;
    }

    /** Move the entries from `index` on up by one. */
    method ShiftUp(index: nat)
      requires index <= count < data.Length
      modifies data
      ensures data[..index] == old(data[..index]) && data[index + 1..count + 1] == old(data[index..count])
      ensures forall j :: count < j < data.Length ==> data[j] == old(data[j])
    {
      var i := count;
      while i > index
        invariant index <= i <= count
        invariant forall j :: 0 <= j < i || count < j < data.Length ==> data[j] == old(data[j])
        invariant forall j :: i < j <= count ==> data[j] == old(data[j - 1])
      {
        i := i - 1;
        data[i + 1] := data[i];
      }
    }

    /** Insert or replace; nothing changes when it is refused. */
    method InsertWithOptions(key: nat, value: V, mustBeNew: bool) returns (r: InsertResult<V>)
      requires Valid()
      modifies this`count, data
      ensures Valid()
      ensures (Entries(), r) == Put(old(Entries()), data.Length, key, value, mustBeNew)
      ensures (Contents(), r) == PutMap(old(Contents()), data.Length, key, value, mustBeNew)
    {
      hide Sorted, ToMap, PutMap, Rank;
      ghost var before := Entries();
      PutRefines(before, data.Length, key, value, mustBeNew);
      var found, index := BinarySearch(key);
      if found {
        if mustBeNew {
          return AlreadyExist;
        }
        var previous := data[index].value;
        data[index] := Entry(key, value);
        assert Entries() == before[index := Entry(key, value)];
        return Inserted(Some(previous));
      }
      if count >= data.Length {
        return ExceedMaxLengthLimit;
      }
      ShiftUp(index);
      data[index] := Entry(key, value);
      count := count + 1;
      assert Entries() == before[..index] + [Entry(key, value)] + before[index..] by {
        assert before[..index] == data[..index] && before[index..] == data[index + 1..count];
      }
      return Inserted(None);
    }

    /** Move the entries after `index` down by one. It reads the entry after the last one: blank if there
        is room, out of bounds if not. */
    method ShiftDown(index: nat) returns (ok: bool)
      requires index < count <= data.Length
      modifies data
      ensures ok <==> count < data.Length
      ensures ok ==> data[..index] == old(data[..index]) && data[index..count] == old(data[index + 1..count + 1])
      ensures ok ==> forall j :: count <= j < data.Length ==> data[j] == old(data[j])
    {
      for i := index to count
        invariant i == index || i < data.Length
        invariant forall j :: 0 <= j < index || i <= j < data.Length ==> data[j] == old(data[j])
        invariant forall j :: index <= j < i ==> data[j] == old(data[j + 1])
      {
        if i + 1 >= data.Length {
          return false;
        }
        data[i] := data[i + 1];
      }
      return true;
    }

    /** Remove a key. When the key is present and the array is full, the shift runs out of bounds and the
        map is left unusable. */
    method Remove(key: nat) returns (r: RemoveResult<V>)
      requires Valid()
      modifies this`count, data
      ensures r.OutOfBounds? <==> key in old(Contents()) && |old(Contents())| == data.Length
      ensures !r.OutOfBounds? ==> Valid() && (Contents(), r) == TakeMap(old(Contents()), key)
      ensures !r.OutOfBounds? ==> (Entries(), r) == Take(old(Entries()), data.Length, key)
    {
      hide Sorted, ToMap, TakeMap, Rank;
      ghost var before := Entries();
      TakeRefines(before, data.Length, key);
      var found, index := BinarySearch(key);
      if !found {
        return Absent;
      }
      var value := data[index].value;
      data[index] := Entry(data[index].key, blank);
      assert before[..index] == data[..index] && before[index + 1..] == data[index + 1..count];
      var ok := ShiftDown(index);
      if !ok {
        return OutOfBounds;
      }
      data[count - 1] := Entry(0, blank);
      count := count - 1;
      assert Entries() == before[..index] + before[index + 1..];
      return Removed(value);
    }

    method Clear()
      requires Valid()
      modifies this`count, data
      ensures Valid() && Contents() == map[]
    {
      var len := count;
      for i := 0 to len
        invariant forall j :: 0 <= j < i || len <= j < data.Length ==> data[j] == Entry(0, blank)
      {
        data[i] := Entry(0, blank);
      }
      count := 0;
    }
  }
}
