/** The record store: the column schema and the "samples" collection persisted as one blob.
    The blob is a `Slot`; every operation reads the whole collection, computes a new one
    and writes it back. Whether the storage accepts a given `setItem` call is a boolean
    parameter of the operation that makes it. */
module DatabaseService {
  import opened Records

  /** What the "samples" storage key holds: nothing, a blob that does not parse, or a collection. */
  datatype Slot = Empty | Corrupt | Stored(records: seq<Record>)

  datatype StoreError = NotFound | WriteFailed

  /** A mutation either resolves with a value or rejects with the error it re-throws. */
  datatype Outcome<+T> = Ok(value: T) | Err(error: StoreError)

  // ---------------------------------------------------------------------------
  // Schema and seed data

  /** The fixed table schema. */
  function GetColumns(): (cols: seq<string>)
    ensures cols == ["id", "name", "description"]
    ensures "status" !in cols && "created_at" !in cols
  {
    ["id", "name", "description"]
  }

  /** The three rows written on the first read of an empty store. */
  const Seed: seq<Record> := [
    Record(Some(1), map["name" := Str("Sample 1"), "description" := Str("First sample entry")]),
    Record(Some(2), map["name" := Str("Sample 2"), "description" := Str("Second sample entry")]),
    Record(Some(3), map["name" := Str("Sample 3"), "description" := Str("Third sample entry")])
  ]

  // ---------------------------------------------------------------------------
  // The persisted collection's invariant

  /** Every record has an id of at least 1 and ids strictly increase along the collection,
      so in particular no two records share an id. */
  ghost predicate WellFormed(rs: seq<Record>)
  {
    && (forall i :: 0 <= i < |rs| ==> rs[i].id.Some? && rs[i].id.value >= 1)
    && (forall i, j :: 0 <= i < j < |rs| ==> rs[i].id.value < rs[j].id.value)
  }

  ghost predicate SlotWellFormed(slot: Slot)
  {
    slot.Stored? ==> WellFormed(slot.records)
  }

  // ---------------------------------------------------------------------------
  // Reading: what `getSamples` returns and what it leaves in storage

  /** The collection `getSamples` returns: the stored one (even when empty), the seed when
      nothing is stored and the seed could be written, and `[]` on any failure. */
  function ReadResult(slot: Slot, writeOk: bool): (rs: seq<Record>)
    ensures SlotWellFormed(slot) ==> WellFormed(rs)
  {
    match slot
    case Stored(records) => records
    case Corrupt => []
    case Empty => if writeOk then Seed else []
  }

  /** The storage after `getSamples`: only an empty slot is written, with the seed. */
  function SlotAfterRead(slot: Slot, writeOk: bool): (s: Slot)
    ensures SlotWellFormed(slot) ==> SlotWellFormed(s)
    ensures s.Stored? ==> s.records == ReadResult(slot, writeOk)
    ensures !s.Stored? ==> ReadResult(slot, writeOk) == []
    ensures !writeOk ==> s == slot
    ensures slot != Empty ==> s == slot
  {
    match slot
    case Empty => if writeOk then Stored(Seed) else Empty
    case _ => slot
  }

  /** A stored collection, even an empty one, is returned as it is and never reseeded; an
      unparseable blob reads as `[]` and is left in place; an empty slot is seeded with ids 1, 2, 3. */
  lemma GetSamplesSeedsOnlyEmpty(slot: Slot, writeOk: bool)
    ensures slot.Stored? ==> ReadResult(slot, writeOk) == slot.records && SlotAfterRead(slot, writeOk) == slot
    ensures slot == Corrupt ==> ReadResult(slot, writeOk) == [] && SlotAfterRead(slot, writeOk) == Corrupt
    ensures slot == Empty && writeOk ==>
      && ReadResult(slot, writeOk) == Seed
      && SlotAfterRead(slot, writeOk) == Stored(Seed)
      && |Seed| == 3
      && forall i :: 0 <= i < 3 ==> Seed[i].id == Some(i + 1)
  {
  }

  // ---------------------------------------------------------------------------
  // Id assignment: `Math.max(...samples.map(s => s.id || 0)) + 1`, or 1 when empty

  /** `s.id || 0`: the id when it is truthy, 0 otherwise. */
  function IdOrZero(r: Record): (k: int)
    ensures Truthy(Get(r, "id")) ==> Get(r, "id") == Num(k)
    ensures !Truthy(Get(r, "id")) ==> k == 0
  {
    match r.id
    case Some(k) => k
    case None => 0
  }

  function MaxIdOrZero(rs: seq<Record>): (m: int)
    requires |rs| > 0
    ensures forall i :: 0 <= i < |rs| ==> IdOrZero(rs[i]) <= m
    ensures exists i :: 0 <= i < |rs| && IdOrZero(rs[i]) == m
    decreases |rs|
  {
    if |rs| == 1 then IdOrZero(rs[0])
    else
      var rest := MaxIdOrZero(rs[1..]);
      assert exists i :: 1 <= i < |rs| && IdOrZero(rs[i]) == rest by {
        var j :| 0 <= j < |rs| - 1 && IdOrZero(rs[1..][j]) == rest;
        assert IdOrZero(rs[j + 1]) == rest;
      }
      if IdOrZero(rs[0]) >= rest then IdOrZero(rs[0]) else rest
  }

  /** The id `addSample` gives a new record: above every existing id, and exactly one above
      the largest `id || 0`. */
  function NextId(rs: seq<Record>): (n: int)
    ensures |rs| == 0 ==> n == 1
    ensures forall i :: 0 <= i < |rs| ==> IdOrZero(rs[i]) < n && rs[i].id != Some(n)
    ensures |rs| > 0 ==> exists i :: 0 <= i < |rs| && IdOrZero(rs[i]) == n - 1
  {
    if |rs| > 0 then MaxIdOrZero(rs) + 1 else 1
  }

  /** On a well-formed collection the next id is the last record's id plus one. */
  lemma NextIdAfterLast(rs: seq<Record>)
    requires WellFormed(rs) && |rs| > 0
    ensures NextId(rs) == rs[|rs| - 1].id.value + 1
  {
  }

  /** The record `addSample` appends: the input with its id overwritten. */
  function WithId(sample: Record, id: int): (r: Record)
    ensures r.fields == sample.fields && r.id == Some(id)
  {
    sample.(id := Some(id))
  }

  /** Appending a created record keeps the collection well formed. */
  lemma AddKeepsWellFormed(rs: seq<Record>, sample: Record)
    requires WellFormed(rs)
    ensures WellFormed(rs + [WithId(sample, NextId(rs))])
  {
  }

  /** Creating the given records one after another, as repeated `addSample` calls do. */
  function AddAll(rs: seq<Record>, samples: seq<Record>): (out: seq<Record>)
    ensures |out| == |rs| + |samples|
    ensures out[..|rs|] == rs
    decreases |samples|
  {
    if |samples| == 0 then rs
    else AddAll(rs + [WithId(samples[0], NextId(rs))], samples[1..])
  }

  /** Any run of creates leaves the collection well formed: the ids assigned are unique and
      strictly increasing in the order of assignment. */
  lemma {:induction false} AddAllKeepsWellFormed(rs: seq<Record>, samples: seq<Record>)
    requires WellFormed(rs)
    ensures WellFormed(AddAll(rs, samples))
    decreases |samples|
  {
    if |samples| > 0 {
      AddKeepsWellFormed(rs, samples[0]);
      AddAllKeepsWellFormed(rs + [WithId(samples[0], NextId(rs))], samples[1..]);
    }
  }

  /** Each created record keeps the fields of the input it was created from, in input order. */
  lemma {:induction false} AddAllKeepsFields(rs: seq<Record>, samples: seq<Record>, i: int)
    requires 0 <= i < |samples|
    ensures AddAll(rs, samples)[|rs| + i].fields == samples[i].fields
    decreases |samples|
  {
    var next := rs + [WithId(samples[0], NextId(rs))];
    var out := AddAll(rs, samples);
    assert out == AddAll(next, samples[1..]);
    if i == 0 {
      assert out[..|next|] == next;
      assert out[|rs|] == out[..|next|][|rs|];
    } else {
      AddAllKeepsFields(next, samples[1..], i - 1);
    }
  }

  // ---------------------------------------------------------------------------
  // Lookup for update: `samples.findIndex(s => s.id === id)`

  function FindIndex(rs: seq<Record>, id: int): (k: int)
    ensures -1 <= k < |rs|
    ensures k == -1 <==> forall i :: 0 <= i < |rs| ==> rs[i].id != Some(id)
    ensures k >= 0 ==> rs[k].id == Some(id) && forall i :: 0 <= i < k ==> rs[i].id != Some(id)
    decreases |rs|
  {
    if |rs| == 0 then -1
    else if rs[0].id == Some(id) then 0
    else
      var k := FindIndex(rs[1..], id);
      assert forall i :: 1 <= i < |rs| ==> rs[i] == rs[1..][i - 1];
      if k == -1 then -1 else k + 1
  }

  /** Replacing the found record by the submitted data with the id forced keeps the
      collection well formed: the id at that position does not change. */
  lemma UpdateKeepsWellFormed(rs: seq<Record>, id: int, data: Record)
    requires WellFormed(rs) && FindIndex(rs, id) >= 0
    ensures WellFormed(rs[FindIndex(rs, id) := WithId(data, id)])
  {
  }

  // ---------------------------------------------------------------------------
  // Deletion: `samples.filter(s => s.id !== id)`

  function Without(rs: seq<Record>, id: Option<int>): (out: seq<Record>)
    ensures |out| <= |rs|
    ensures forall r :: r in out <==> r in rs && r.id != id
    decreases |rs|
  {
    if |rs| == 0 then []
    else if rs[0].id != id then [rs[0]] + Without(rs[1..], id)
    else Without(rs[1..], id)
  }

  /** Deleting an id no record has leaves the collection as it is. */
  lemma {:induction false} WithoutAbsent(rs: seq<Record>, id: Option<int>)
    requires forall i :: 0 <= i < |rs| ==> rs[i].id != id
    ensures Without(rs, id) == rs
    decreases |rs|
  {
    if |rs| > 0 {
      WithoutAbsent(rs[1..], id);
      assert rs == [rs[0]] + rs[1..];
    }
  }

  /** Deleting twice has the effect of deleting once. */
  lemma WithoutIdempotent(rs: seq<Record>, id: Option<int>)
    ensures Without(Without(rs, id), id) == Without(rs, id)
  {
  }

  /** The filter keeps the survivors in their original order: it distributes over concatenation. */
  lemma {:induction false} WithoutConcat(a: seq<Record>, b: seq<Record>, id: Option<int>)
    ensures Without(a + b, id) == Without(a, id) + Without(b, id)
    decreases |a|
  {
    if |a| == 0 {
      assert a + b == b;
    } else {
      assert (a + b)[0] == a[0];
      assert (a + b)[1..] == a[1..] + b;
      WithoutConcat(a[1..], b, id);
    }
  }

  /** A record whose id is below every id of a well-formed collection can head it. */
  lemma ConsWellFormed(x: Record, rest: seq<Record>)
    requires WellFormed(rest) && x.id.Some? && x.id.value >= 1
    requires forall j :: 0 <= j < |rest| ==> x.id.value < rest[j].id.value
    ensures WellFormed([x] + rest)
  {
  }

  /** Deleting keeps the collection well formed. */
  lemma {:induction false} WithoutKeepsWellFormed(rs: seq<Record>, id: Option<int>)
    requires WellFormed(rs)
    ensures WellFormed(Without(rs, id))
    decreases |rs|
  {
    if |rs| > 0 {
      var rest := Without(rs[1..], id);
      WithoutKeepsWellFormed(rs[1..], id);
      if rs[0].id != id {
        forall j | 0 <= j < |rest| ensures rs[0].id.value < rest[j].id.value {
          assert rest[j] in rs[1..];
          var i :| 0 <= i < |rs[1..]| && rs[1..][i] == rest[j];
          assert rs[i + 1] == rest[j];
        }
        ConsWellFormed(rs[0], rest);
      }
    }
  }

  /** In a well-formed collection an id names at most one record, so deleting a present id
      removes exactly one record. */
  lemma {:induction false} WithoutRemovesOne(rs: seq<Record>, k: int)
    requires WellFormed(rs) && 0 <= k < |rs|
    ensures |Without(rs, rs[k].id)| == |rs| - 1
    decreases |rs|
  {
    var id := rs[k].id;
    if k == 0 {
      forall i | 0 <= i < |rs[1..]| ensures rs[1..][i].id != id {
        assert rs[1..][i] == rs[i + 1];
      }
      WithoutAbsent(rs[1..], id);
    } else {
      assert rs[0].id != id;
      WithoutKeepsWellFormed(rs, id);
      assert rs[1..][k - 1] == rs[k];
      WithoutRemovesOne(rs[1..], k - 1);
    }
  }

  // ---------------------------------------------------------------------------
  // Worked examples on the seeded store

  /** Creating {name: "X", description: "Y"} on the seeded store gives id 4; deleting id 2
      leaves ids 1 and 3; updating id 1 with {name: "Z"} replaces the whole record, so its
      description is gone. */
  lemma SeededStoreExamples()
    ensures NextId(Seed) == 4
    ensures Without(Seed, Some(2)) == [Seed[0], Seed[2]]
    ensures var data := Record(None, map["name" := Str("Z")]);
      && FindIndex(Seed, 1) == 0
      && Get(WithId(data, 1), "name") == Str("Z")
      && Get(WithId(data, 1), "id") == Num(1)
      && Get(WithId(data, 1), "description") == Undefined
  {
  }

  // ---------------------------------------------------------------------------
  // The store

  class SampleStore {
    /** The "samples" storage key. */
    var slot: Slot

    ghost predicate Valid()
      reads this
    {
      SlotWellFormed(slot)
    }

    constructor (initial: Slot)
      ensures slot == initial
    {
      slot := initial;
    }

    /** `localStorage.setItem("samples", ...)`: replaces the blob, or fails and leaves it. */
    method Write(records: seq<Record>, writeOk: bool) returns (ok: bool)
      modifies this
      ensures ok == writeOk
      ensures slot == if writeOk then Stored(records) else old(slot)
    {
      ok := writeOk;
      if ok {
        slot := Stored(records);
      }
    }

    /** `getSamples`: never fails; a read or seed-write failure yields `[]`. */
    method GetSamples(writeOk: bool) returns (samples: seq<Record>)
      modifies this
      ensures samples == ReadResult(old(slot), writeOk)
      ensures slot == SlotAfterRead(old(slot), writeOk)
      ensures old(Valid()) ==> Valid() && WellFormed(samples)
    {
      match slot
      case Stored(records) =>
        samples := records;
      case Corrupt =>
        samples := [];
      case Empty =>
        var ok := Write(Seed, writeOk);
        samples := if ok then Seed else [];
    }

    /** `addSample`: appends the input under the next id and returns the stored record.
        Its read may seed an empty slot (`seedOk`) before its own write (`writeOk`); the two
        `setItem` calls succeed or fail independently. */
    method AddSample(sample: Record, seedOk: bool, writeOk: bool) returns (r: Outcome<Record>)
      modifies this
      ensures var before := ReadResult(old(slot), seedOk);
        if writeOk then
          && r == Ok(WithId(sample, NextId(before)))
          && slot == Stored(before + [r.value])
        else
          r == Err(WriteFailed) && slot == SlotAfterRead(old(slot), seedOk)
      ensures old(Valid()) ==> Valid()
    {
      var samples := GetSamples(seedOk);
      var newSample := WithId(sample, NextId(samples));
      var ok := Write(samples + [newSample], writeOk);
      if !ok {
        return Err(WriteFailed);
      }
      r := Ok(newSample);
      if old(Valid()) {
        AddKeepsWellFormed(samples, sample);
      }
    }

    /** `updateSample`: replaces the first record with this id by the data with the id
        forced; rejects with NotFound when no record has the id. A rejection leaves whatever
        the read wrote. */
    method UpdateSample(id: int, data: Record, seedOk: bool, writeOk: bool) returns (r: Outcome<Record>)
      modifies this
      ensures var before := ReadResult(old(slot), seedOk);
        var k := FindIndex(before, id);
        if k == -1 then
          r == Err(NotFound) && slot == SlotAfterRead(old(slot), seedOk)
        else if writeOk then
          && r == Ok(WithId(data, id))
          && slot == Stored(before[k := r.value])
        else
          r == Err(WriteFailed) && slot == SlotAfterRead(old(slot), seedOk)
      ensures old(Valid()) ==> Valid()
    {
      var samples := GetSamples(seedOk);
      var index := FindIndex(samples, id);
      if index == -1 {
        return Err(NotFound);
      }
      var updated := samples[index := WithId(data, id)];
      var ok := Write(updated, writeOk);
      if !ok {
        return Err(WriteFailed);
      }
      r := Ok(updated[index]);
      if old(Valid()) {
        UpdateKeepsWellFormed(samples, id, data);
      }
    }

    /** `deleteSample`: keeps every record whose id differs; an absent id is no error. */
    method DeleteSample(id: Option<int>, seedOk: bool, writeOk: bool) returns (r: Outcome<()>)
      modifies this
      ensures var before := ReadResult(old(slot), seedOk);
        if writeOk then
          r == Ok(()) && slot == Stored(Without(before, id))
        else
          r == Err(WriteFailed) && slot == SlotAfterRead(old(slot), seedOk)
      ensures old(Valid()) ==> Valid()
    {
      var samples := GetSamples(seedOk);
      var ok := Write(Without(samples, id), writeOk);
      if !ok {
        return Err(WriteFailed);
      }
      r := Ok(());
      if old(Valid()) {
        WithoutKeepsWellFormed(samples, id);
      }
    }
  }

  /** The read's seed write and a mutation's own write are separate `setItem` calls: an
      update of record 1 on an empty store whose own write is refused rejects but leaves the
      seed stored, and a create whose seed write is refused reads `[]` and gets id 1. */
  method SeedAndWriteAreIndependent() returns (rejected: Outcome<Record>, kept: Slot, created: Outcome<Record>)
    ensures rejected == Err(WriteFailed) && kept == Stored(Seed)
    ensures created == Ok(Record(Some(1), map["name" := Str("X")]))
  {
    var seeded := new SampleStore(Empty);
    rejected := seeded.UpdateSample(1, Record(None, map["name" := Str("Z")]), true, false);
    kept := seeded.slot;
    var unseeded := new SampleStore(Empty);
    created := unseeded.AddSample(Record(None, map["name" := Str("X")]), false, true);
  }
}
