/** The page: five pieces of view state kept in step with the record store by its handlers.
    Each handler runs to completion as one step. A handler that calls a store mutation says
    whether that call's seed write (`seedOk`) and its own write (`writeOk`) are accepted. */
module IndexPage {
  import opened Records
  import opened DatabaseService
  import DataTable

  /** What the page does, in order: loading-flag changes and calls into the store. */
  datatype Event =
    | SetLoading(on: bool)
    | GetColumnsCall
    | GetSamplesCall
    | AddCall(data: Record)
    | UpdateCall(id: int, data: Record)
    | DeleteCall(target: Option<int>)

  /** One `fetchData`: loading on, columns, then samples, loading off. */
  const FetchEvents: seq<Event> := [SetLoading(true), GetColumnsCall, GetSamplesCall, SetLoading(false)]

  /** The list a read of this storage would show. */
  function Shown(slot: Slot): seq<Record>
  {
    if slot.Stored? then slot.records else []
  }

  /** After any read, what the store holds is what the read returned: the storage and the
      list `fetchData` shows cannot disagree, whether or not the seed write succeeded. */
  lemma ShownAfterRead(slot: Slot, writeOk: bool)
    ensures Shown(SlotAfterRead(slot, writeOk)) == ReadResult(slot, writeOk)
  {
  }

  /** The id `handleFormSubmit` updates when the form is in edit mode. */
  function EditedId(editing: Option<Record>): int
    requires HasTruthyId(editing)
  {
    HasTruthyIdExactly(editing);
    editing.value.id.value
  }

  /** The store call a submit makes: an update of the edited id when `editingSample.id` is
      truthy, a create otherwise; the form data is passed on unchanged. */
  function SubmitCall(editing: Option<Record>, data: Record): (e: Event)
    ensures e.UpdateCall? <==> HasTruthyId(editing)
    ensures e.UpdateCall? ==> e == UpdateCall(EditedId(editing), data)
    ensures e.AddCall? <==> !HasTruthyId(editing)
    ensures e.AddCall? ==> e.data == data
  {
    if HasTruthyId(editing) then UpdateCall(EditedId(editing), data) else AddCall(data)
  }

  /** Whether the submit's store call resolves: its own write is accepted and, for an
      update, the read (whose seed write may or may not have been accepted) has the id. */
  function SubmitSucceeds(slot: Slot, editing: Option<Record>, seedOk: bool, writeOk: bool): bool
  {
    writeOk && (!HasTruthyId(editing) || FindIndex(ReadResult(slot, seedOk), EditedId(editing)) >= 0)
  }

  /** The collection a successful submit leaves in the store. */
  function SubmitResult(slot: Slot, editing: Option<Record>, data: Record, seedOk: bool, writeOk: bool): seq<Record>
    requires SubmitSucceeds(slot, editing, seedOk, writeOk)
  {
    var before := ReadResult(slot, seedOk);
    if HasTruthyId(editing) then before[FindIndex(before, EditedId(editing)) := WithId(data, EditedId(editing))]
    else before + [WithId(data, NextId(before))]
  }

  class Index {
    var samples: seq<Record>
    var columns: seq<string>
    var loading: bool
    var editingSample: Option<Record>
    var isFormVisible: bool
    const store: SampleStore
    ghost var events: seq<Event>

    /** The shown list is what the store holds. */
    ghost predicate InSync()
      reads this, store
    {
      samples == Shown(store.slot)
    }

    /** The page before its first fetch. */
    constructor (store: SampleStore)
      ensures samples == [] && columns == [] && loading
      ensures editingSample == None && !isFormVisible
      ensures this.store == store && events == []
    {
      samples := [];
      columns := [];
      loading := true;
      editingSample := None;
      isFormVisible := false;
      this.store := store;
      events := [];
    }

    /** `fetchData`, also run on mount: columns first, then samples, with `loading` on
        around both. Neither store read fails, so the catch branch is never taken. */
    method FetchData(writeOk: bool)
      modifies this, store
      ensures columns == GetColumns()
      ensures samples == ReadResult(old(store.slot), writeOk)
      ensures store.slot == SlotAfterRead(old(store.slot), writeOk)
      ensures InSync() && !loading
      ensures editingSample == old(editingSample) && isFormVisible == old(isFormVisible)
      ensures events == old(events) + FetchEvents
      ensures old(store.Valid()) ==> store.Valid()
    {
      loading := true;
      events := events + [SetLoading(true)];
      events := events + [GetColumnsCall];
      var columnsData := GetColumns();
      columns := columnsData;
      events := events + [GetSamplesCall];
      var samplesData := store.GetSamples(writeOk);
      samples := samplesData;
      loading := false;
      events := events + [SetLoading(false)];
    }

    /** `handleAddNew`: an empty form for a new record. */
    method HandleAddNew()
      modifies this
      ensures editingSample == None && isFormVisible
      ensures samples == old(samples) && columns == old(columns) && loading == old(loading)
      ensures events == old(events)
    {
      editingSample := None;
      isFormVisible := true;
    }

    /** `handleEdit`: the form, filled from the chosen row. */
    method HandleEdit(sample: Record)
      modifies this
      ensures editingSample == Some(sample) && isFormVisible
      ensures samples == old(samples) && columns == old(columns) && loading == old(loading)
      ensures events == old(events)
    {
      editingSample := Some(sample);
      isFormVisible := true;
    }

    /** `handleFormCancel`: hides the form and touches nothing else, the store included. */
    method HandleFormCancel()
      modifies this
      ensures !isFormVisible
      ensures editingSample == old(editingSample)
      ensures samples == old(samples) && columns == old(columns) && loading == old(loading)
      ensures events == old(events)
    {
      isFormVisible := false;
    }

    /** `handleDelete`: deletes in the store and refreshes only when that succeeds; on
        failure the page is left as it was. */
    method HandleDelete(id: Option<int>, seedOk: bool, writeOk: bool)
      modifies this, store
      ensures var before := ReadResult(old(store.slot), seedOk);
        if writeOk then
          && store.slot == Stored(Without(before, id))
          && samples == Without(before, id) && InSync()
          && columns == GetColumns() && !loading
          && events == old(events) + [DeleteCall(id)] + FetchEvents
        else
          && store.slot == SlotAfterRead(old(store.slot), seedOk)
          && samples == old(samples) && columns == old(columns) && loading == old(loading)
          && events == old(events) + [DeleteCall(id)]
      ensures editingSample == old(editingSample) && isFormVisible == old(isFormVisible)
      ensures old(store.Valid()) ==> store.Valid()
    {
      events := events + [DeleteCall(id)];
      var r := store.DeleteSample(id, seedOk, writeOk);
      if r.Ok? {
        FetchData(writeOk);
      }
    }

    /** `handleFormSubmit`: updates the edited record when `editingSample.id` is truthy (the
        form's edit mode) and creates one otherwise; on success refreshes and hides the form,
        on failure leaves the form open and the page as it was. */
    method HandleFormSubmit(data: Record, seedOk: bool, writeOk: bool)
      modifies this, store
      ensures var call := SubmitCall(old(editingSample), data);
        if SubmitSucceeds(old(store.slot), old(editingSample), seedOk, writeOk) then
          && store.slot == Stored(SubmitResult(old(store.slot), old(editingSample), data, seedOk, writeOk))
          && InSync() && columns == GetColumns() && !loading && !isFormVisible
          && events == old(events) + [call] + FetchEvents
        else
          && store.slot == SlotAfterRead(old(store.slot), seedOk)
          && samples == old(samples) && columns == old(columns) && loading == old(loading)
          && isFormVisible == old(isFormVisible)
          && events == old(events) + [call]
      ensures editingSample == old(editingSample)
      ensures old(store.Valid()) ==> store.Valid()
    {
      var saved: bool;
      if HasTruthyId(editingSample) {
        var id := EditedId(editingSample);
        events := events + [UpdateCall(id, data)];
        var r := store.UpdateSample(id, data, seedOk, writeOk);
        saved := r.Ok?;
      } else {
        events := events + [AddCall(data)];
        var r := store.AddSample(data, seedOk, writeOk);
        saved := r.Ok?;
      }
      if saved {
        FetchData(writeOk);
        isFormVisible := false;
      }
    }
  }

  const Created: Record := Record(None, map["name" := Str("X"), "description" := Str("Y")])
  const Edited: Record := Record(Some(1), map["name" := Str("Z")])

  /** The store after each step of the first visit below. */
  const AfterCreate: seq<Record> := Seed + [WithId(Created, 4)]
  const AfterEdit: seq<Record> := [WithId(Edited, 1), Seed[1], Seed[2], WithId(Created, 4)]

  /** The first visit's create: the seeded store gains record 4. */
  lemma FirstVisitCreate()
    ensures SubmitSucceeds(Stored(Seed), None, true, true)
    ensures SubmitResult(Stored(Seed), None, Created, true, true) == AfterCreate
  {
  }

  /** The first visit's edit of record 1 replaces it in place. */
  lemma FirstVisitEdit()
    ensures SubmitSucceeds(Stored(AfterCreate), Some(AfterCreate[0]), true, true)
    ensures SubmitResult(Stored(AfterCreate), Some(AfterCreate[0]), Edited, true, true) == AfterEdit
  {
  }

  /** The first visit's delete of record 2 keeps the other three in order. */
  lemma FirstVisitDelete()
    ensures Without(AfterEdit, AfterEdit[1].id) == [AfterEdit[0], AfterEdit[2], AfterEdit[3]]
  {
    var s2 := AfterEdit;
    assert s2 == [s2[0]] + [s2[1]] + [s2[2], s2[3]];
    WithoutConcat([s2[0]] + [s2[1]], [s2[2], s2[3]], Some(2));
    WithoutConcat([s2[0]], [s2[1]], Some(2));
    WithoutAbsent([s2[2], s2[3]], Some(2));
  }

  /** A first visit: mounting seeds the store; creating {name: "X", description: "Y"} gets
      id 4; editing record 1 with {name: "Z"} replaces that record whole; deleting record 2
      through the table's confirmation dialog leaves records 1, 3 and 4 shown, in order. */
  method FirstVisit() returns (shown: seq<Record>)
    ensures |shown| == 3
    ensures shown[0] == Record(Some(1), map["name" := Str("Z")])
    ensures shown[1] == Seed[2]
    ensures shown[2] == Record(Some(4), map["name" := Str("X"), "description" := Str("Y")])
  {
    var store := new SampleStore(Empty);
    var page := new Index(store);
    page.FetchData(true);
    assert store.slot == Stored(Seed);

    page.HandleAddNew();
    assert SubmitSucceeds(store.slot, page.editingSample, true, true)
      && SubmitResult(store.slot, page.editingSample, Created, true, true) == AfterCreate by {
      FirstVisitCreate();
    }
    page.HandleFormSubmit(Created, true, true);
    assert page.samples == AfterCreate;

    page.HandleEdit(page.samples[0]);
    assert SubmitSucceeds(store.slot, page.editingSample, true, true)
      && SubmitResult(store.slot, page.editingSample, Edited, true, true) == AfterEdit by {
      FirstVisitEdit();
    }
    page.HandleFormSubmit(Edited, true, true);
    assert page.samples == AfterEdit;

    var table := new DataTable.DataTableState();
    table.ConfirmDelete(page.samples[1].id);
    var request := table.HandleDelete();
    page.HandleDelete(request.id, true, true);
    FirstVisitDelete();
    shown := page.samples;
  }
}
