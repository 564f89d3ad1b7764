/**
 * The column list of the page on screen
 * (interactive-preprocessing/src/stores/imageStore.ts). The new lists are
 * pure functions of the old; each mutator then writes the list to both the
 * store's own `columns` and the session store's `currentPage`, and marks
 * the page dirty.
 */
module ImageStore {
  import opened Wrappers
  import opened Types
  import SessionStore

  /** A `Partial<Column>`: the fields an update overrides. */
  datatype ColumnPatch = ColumnPatch(
    id: Option<string>,
    x: Option<int>,
    y: Option<int>,
    width: Option<int>,
    height: Option<int>,
    order: Option<int>)

  /** `{ ...c, ...patch }`: every field the patch holds wins, the others stay. */
  function ApplyPatch(c: Column, patch: ColumnPatch): Column
  {
    Column(
      patch.id.GetOr(c.id),
      patch.x.GetOr(c.x),
      patch.y.GetOr(c.y),
      patch.width.GetOr(c.width),
      patch.height.GetOr(c.height),
      patch.order.GetOr(c.order))
  }

  /** The patch `reorderColumn` passes to `updateColumn`. */
  function OrderPatch(newOrder: int): ColumnPatch
  {
    ColumnPatch(None, None, None, None, None, Some(newOrder))
  }

  /** `columns.filter(c => c.id !== id)`. */
  function WithoutId(columns: seq<Column>, id: string): (r: seq<Column>)
    ensures |r| <= |columns|
    ensures forall c :: c in r <==> c in columns && c.id != id
  {
    if columns == [] then []
    else if columns[0].id == id then WithoutId(columns[1..], id)
    else [columns[0]] + WithoutId(columns[1..], id)
  }

  /** `columns.map(c => c.id === id ? { ...c, ...patch } : c)`. */
  function UpdatedById(columns: seq<Column>, id: string, patch: ColumnPatch): (r: seq<Column>)
    ensures |r| == |columns|
    ensures forall i :: 0 <= i < |columns| ==>
      r[i] == if columns[i].id == id then ApplyPatch(columns[i], patch) else columns[i]
  {
    if columns == [] then []
    else
      [if columns[0].id == id then ApplyPatch(columns[0], patch) else columns[0]]
        + UpdatedById(columns[1..], id, patch)
  }

  /** Removal keeps the relative order of what it keeps: it splits over concatenation. */
  lemma {:induction false} WithoutIdConcat(a: seq<Column>, b: seq<Column>, id: string)
    ensures WithoutId(a + b, id) == WithoutId(a, id) + WithoutId(b, id)
  {
    if a != [] {
      assert (a + b)[1..] == a[1..] + b;
      WithoutIdConcat(a[1..], b, id);
    } else {
      assert a + b == b;
    }
  }

  /** Removing the same id twice is the same as removing it once. */
  lemma {:induction false} WithoutIdIdempotent(columns: seq<Column>, id: string)
    ensures WithoutId(WithoutId(columns, id), id) == WithoutId(columns, id)
  {
    if columns != [] {
      WithoutIdIdempotent(columns[1..], id);
    }
  }

  /** Removing an id that no column has leaves the list as it was. */
  lemma {:induction false} WithoutAbsentId(columns: seq<Column>, id: string)
    requires forall i :: 0 <= i < |columns| ==> columns[i].id != id
    ensures WithoutId(columns, id) == columns
  {
    if columns != [] {
      WithoutAbsentId(columns[1..], id);
    }
  }

  /**
   * `reorderColumn(id, n)` changes only the `order` of the columns with that
   * id; no other column is renumbered and no other field moves.
   */
  lemma ReorderChangesOnlyOrder(columns: seq<Column>, id: string, newOrder: int)
    ensures var r := UpdatedById(columns, id, OrderPatch(newOrder));
      && |r| == |columns|
      && forall i :: 0 <= i < |columns| ==>
        && r[i] == columns[i].(order := if columns[i].id == id then newOrder else columns[i].order)
  {
  }

  class Store {
    var columns: seq<Column>
    var isDirty: bool
    /** The session store whose `currentPage` this store keeps in step. */
    const sessionStore: SessionStore.Store

    constructor (sessionStore: SessionStore.Store)
      ensures this.sessionStore == sessionStore && columns == [] && !isDirty
    {
      this.sessionStore := sessionStore;
      columns := [];
      isDirty := false;
    }

    /** The store's list and the page on screen hold the same columns. */
    predicate InStep()
      reads this, sessionStore
    {
      sessionStore.currentPage.Some? && sessionStore.currentPage.value.columns == columns
    }

    /** Makes `newColumns` the list of both the store and the page on screen, and marks it dirty. */
    method Commit(newColumns: seq<Column>)
      requires sessionStore.currentPage.Some?
      modifies this`columns, this`isDirty, sessionStore`currentPage
      ensures columns == newColumns && isDirty
      ensures sessionStore.currentPage == Some(old(sessionStore.currentPage.value).(columns := newColumns))
      ensures InStep()
    {
      var page := sessionStore.currentPage.value;
      columns := newColumns;
      sessionStore.currentPage := Some(page.(columns := newColumns));
      isDirty := true;
    }

    method AddColumn(col: Column)
      modifies this`columns, this`isDirty, sessionStore`currentPage
      ensures old(sessionStore.currentPage).None? ==>
        columns == old(columns) && isDirty == old(isDirty) && sessionStore.currentPage == None
      ensures old(sessionStore.currentPage).Some? ==>
        && columns == old(columns) + [col]
        && sessionStore.currentPage == Some(old(sessionStore.currentPage.value).(columns := columns))
        && isDirty && InStep()
    {
      if sessionStore.currentPage.None? {
        return;
      }
      Commit(columns + [col]);
    }

    method RemoveColumn(id: string)
      modifies this`columns, this`isDirty, sessionStore`currentPage
      ensures old(sessionStore.currentPage).None? ==>
        columns == old(columns) && isDirty == old(isDirty) && sessionStore.currentPage == None
      ensures old(sessionStore.currentPage).Some? ==>
        && columns == WithoutId(old(columns), id)
        && sessionStore.currentPage == Some(old(sessionStore.currentPage.value).(columns := columns))
        && isDirty && InStep()
    {
      if sessionStore.currentPage.None? {
        return;
      }
      Commit(WithoutId(columns, id));
    }

    method UpdateColumn(id: string, updates: ColumnPatch)
      modifies this`columns, this`isDirty, sessionStore`currentPage
      ensures old(sessionStore.currentPage).None? ==>
        columns == old(columns) && isDirty == old(isDirty) && sessionStore.currentPage == None
      ensures old(sessionStore.currentPage).Some? ==>
        && columns == UpdatedById(old(columns), id, updates)
        && sessionStore.currentPage == Some(old(sessionStore.currentPage.value).(columns := columns))
        && isDirty && InStep()
    {
      if sessionStore.currentPage.None? {
        return;
      }
      Commit(UpdatedById(columns, id, updates));
    }

    method ClearColumns()
      modifies this`columns, this`isDirty, sessionStore`currentPage
      ensures old(sessionStore.currentPage).None? ==>
        columns == old(columns) && isDirty == old(isDirty) && sessionStore.currentPage == None
      ensures old(sessionStore.currentPage).Some? ==>
        && columns == []
        && sessionStore.currentPage == Some(old(sessionStore.currentPage.value).(columns := []))
        && isDirty && InStep()
    {
      if sessionStore.currentPage.None? {
        return;
      }
      Commit([]);
    }

    /** `reorderColumn(id, n)` is `updateColumn(id, { order: n })`. */
    method ReorderColumn(id: string, newOrder: int)
      modifies this`columns, this`isDirty, sessionStore`currentPage
      ensures old(sessionStore.currentPage).None? ==>
        columns == old(columns) && isDirty == old(isDirty) && sessionStore.currentPage == None
      ensures old(sessionStore.currentPage).Some? ==>
        && columns == UpdatedById(old(columns), id, OrderPatch(newOrder))
        && sessionStore.currentPage == Some(old(sessionStore.currentPage.value).(columns := columns))
        && isDirty && InStep()
    {
      UpdateColumn(id, OrderPatch(newOrder));
    }

    /** Takes the columns of the page on screen as the store's list and clears the dirty flag. */
    method SyncColumnsFromPage()
      modifies this`columns, this`isDirty
      ensures sessionStore.currentPage.None? ==> columns == old(columns) && isDirty == old(isDirty)
      ensures sessionStore.currentPage.Some? ==> InStep() && !isDirty
    {
      var page := sessionStore.currentPage;
      if page.Some? {
        columns := page.value.columns;
        isDirty := false;
      }
    }
  }
}
