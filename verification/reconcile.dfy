/** Insert-or-update of local records against a remote inventory, as the
    importers do it with the ORM's `update_or_create(<lookup fields>,
    defaults={...})`: a row is found by its lookup key; a found row gets the
    defaults, otherwise a row with the key and the defaults is created.
    A row here holds exactly its lookup key and the fields the defaults set. */
module Reconcile {
  import opened Wrappers

  datatype Row<K, D> = Row(key: K, values: D)

  /** No two rows share a lookup key (so the ORM's `get` never finds two). */
  ghost predicate KeysUnique<K, D>(rows: seq<Row<K, D>>)
  {
    forall i, j | 0 <= i < j < |rows| :: rows[i].key != rows[j].key
  }

  predicate HasRow<K(==), D>(rows: seq<Row<K, D>>, k: K)
  {
    exists i | 0 <= i < |rows| :: rows[i].key == k
  }

  /** The position of the first row with key `k`. */
  function IndexOf<K(==), D>(rows: seq<Row<K, D>>, k: K): (r: Option<nat>)
    ensures r.Some? ==> r.value < |rows| && rows[r.value].key == k
    ensures r.Some? ==> forall j | 0 <= j < r.value :: rows[j].key != k
    ensures r.None? ==> !HasRow(rows, k)
  {
    if rows == [] then None
    else if rows[0].key == k then Some(0)
    else
      match IndexOf(rows[1..], k)
      case None => None
      case Some(i) => Some(i + 1)
  }

  /** One `update_or_create(key, defaults=d)`: the first row with key `k`
      gets the defaults `d`; without one, a row is appended. */
  function Upsert<K(==), D>(rows: seq<Row<K, D>>, k: K, d: D): seq<Row<K, D>>
  {
    match IndexOf(rows, k)
    case Some(i) => rows[i := Row(k, d)]
    case None => rows + [Row(k, d)]
  }

  /** After one upsert the row `Row(k, d)` is there, a row is created exactly
      when none had the key, every old row keeps its key and place, rows with
      other keys are untouched, and keys stay unique. */
  lemma UpsertSpec<K, D>(rows: seq<Row<K, D>>, k: K, d: D)
    ensures var r := Upsert(rows, k, d);
      && Row(k, d) in r
      && |r| == (if HasRow(rows, k) then |rows| else |rows| + 1)
      && (forall i | 0 <= i < |rows| :: r[i].key == rows[i].key)
      && (forall i | 0 <= i < |rows| && rows[i].key != k :: r[i] == rows[i])
      && (KeysUnique(rows) ==> KeysUnique(r))
  {
    var r := Upsert(rows, k, d);
    match IndexOf(rows, k)
    case Some(i) =>
      assert r[i] == Row(k, d);
    case None =>
      assert r[|rows|] == Row(k, d);
  }

  /** The rows after upserting every entry, first to last. */
  function UpsertAll<K(==), D>(rows: seq<Row<K, D>>, entries: seq<Row<K, D>>): seq<Row<K, D>>
    decreases |entries|
  {
    if entries == [] then rows
    else
      var n := |entries| - 1;
      Upsert(UpsertAll(rows, entries[..n]), entries[n].key, entries[n].values)
  }

  lemma UpsertAllSnoc<K, D>(rows: seq<Row<K, D>>, entries: seq<Row<K, D>>, e: Row<K, D>)
    ensures UpsertAll(rows, entries + [e]) == Upsert(UpsertAll(rows, entries), e.key, e.values)
  {
    assert (entries + [e])[..|entries|] == entries;
  }

  /** The defaults of the last entry with key `k`, which is what that row ends with. */
  function LastValues<K(==), D>(entries: seq<Row<K, D>>, k: K): Option<D>
    decreases |entries|
  {
    if entries == [] then None
    else
      var n := |entries| - 1;
      if entries[n].key == k then Some(entries[n].values) else LastValues(entries[..n], k)
  }

  /** The entries a batch derives, in order, up to the first that cannot be
      derived, and that failure if there is one. */
  datatype Plan<K, D, E> = Plan(rows: seq<Row<K, D>>, failure: Option<E>)

  function DeriveAll<X, K, D, E>(items: seq<X>, derive: X -> Result<Row<K, D>, E>): Plan<K, D, E>
  {
    if items == [] then Plan([], None)
    else
      match derive(items[0])
      case Err(e) => Plan([], Some(e))
      case Ok(row) =>
        var rest := DeriveAll(items[1..], derive);
        Plan([row] + rest.rows, rest.failure)
  }

  /** The plan is every item's entry, in order, up to the first item that
      cannot be derived; its failure is that item's, and there is none exactly
      when every item was derived. */
  lemma {:induction false} DeriveAllSpec<X, K, D, E>(items: seq<X>, derive: X -> Result<Row<K, D>, E>)
    ensures var plan := DeriveAll(items, derive);
      && |plan.rows| <= |items|
      && (forall i | 0 <= i < |plan.rows| :: derive(items[i]) == Ok(plan.rows[i]))
      && (plan.failure.None? ==> |plan.rows| == |items|)
      && (plan.failure.Some? ==>
            |plan.rows| < |items| && derive(items[|plan.rows|]) == Err(plan.failure.value))
  {
    if items != [] && derive(items[0]).Ok? {
      DeriveAllSpec(items[1..], derive);
    }
  }

  // ---------------------------------------------------------------------------
  // What a batch of upserts does to the table

  /** The frame part of a batch's outcome: keys stay unique, old rows keep
      their keys and their place, and a row whose key no entry names is untouched. */
  ghost predicate KeepsRows<K, D>(rows: seq<Row<K, D>>, entries: seq<Row<K, D>>, out: seq<Row<K, D>>)
  {
    && KeysUnique(out)
    && |rows| <= |out|
    && (forall i | 0 <= i < |rows| :: out[i].key == rows[i].key)
    && (forall i | 0 <= i < |rows| && LastValues(entries, rows[i].key).None? :: out[i] == rows[i])
  }

  /** The update part: every row an entry names holds the defaults of the LAST
      such entry, every entry has a row, and no row is created when every entry
      already had one. */
  ghost predicate AppliesEntries<K, D>(rows: seq<Row<K, D>>, entries: seq<Row<K, D>>, out: seq<Row<K, D>>)
  {
    && (forall i | 0 <= i < |out| && LastValues(entries, out[i].key).Some? ::
          out[i].values == LastValues(entries, out[i].key).value)
    && (forall e | e in entries :: HasRow(out, e.key))
    && ((forall e | e in entries :: HasRow(rows, e.key)) ==> |out| == |rows|)
  }

  lemma LastValuesSnoc<K, D>(pre: seq<Row<K, D>>, e: Row<K, D>, k: K)
    ensures LastValues(pre + [e], k) == if k == e.key then Some(e.values) else LastValues(pre, k)
  {
    assert (pre + [e])[..|pre|] == pre;
  }

  lemma KeepsRowsStep<K, D>(rows: seq<Row<K, D>>, pre: seq<Row<K, D>>, e: Row<K, D>, mid: seq<Row<K, D>>)
    requires KeepsRows(rows, pre, mid)
    ensures KeepsRows(rows, pre + [e], Upsert(mid, e.key, e.values))
  {
    var out := Upsert(mid, e.key, e.values);
    UpsertSpec(mid, e.key, e.values);
    forall i | 0 <= i < |rows| && LastValues(pre + [e], rows[i].key).None?
      ensures out[i] == rows[i]
    {
      LastValuesSnoc(pre, e, rows[i].key);
    }
  }

  lemma AppliesEntriesStep<K, D>(rows: seq<Row<K, D>>, pre: seq<Row<K, D>>, e: Row<K, D>, mid: seq<Row<K, D>>)
    requires KeepsRows(rows, pre, mid) && AppliesEntries(rows, pre, mid)
    ensures AppliesEntries(rows, pre + [e], Upsert(mid, e.key, e.values))
  {
    var entries, out := pre + [e], Upsert(mid, e.key, e.values);
    UpsertSpec(mid, e.key, e.values);
    forall i | 0 <= i < |out| && LastValues(entries, out[i].key).Some?
      ensures out[i].values == LastValues(entries, out[i].key).value
    {
      LastValuesSnoc(pre, e, out[i].key);
      if out[i].key != e.key {
        assert i < |mid| && out[i] == mid[i];
      } else {
        assert KeysUnique(out);
        var j :| 0 <= j < |out| && out[j] == Row(e.key, e.values);
        assert i == j;
      }
    }
    forall x | x in entries ensures HasRow(out, x.key) {
      if x in pre {
        var j :| 0 <= j < |mid| && mid[j].key == x.key;
        assert out[j].key == x.key;
      } else {
        assert x == e;
        var j :| 0 <= j < |out| && out[j] == Row(e.key, e.values);
      }
    }
    if forall x | x in entries :: HasRow(rows, x.key) {
      assert forall x | x in pre :: HasRow(rows, x.key);
      var j :| 0 <= j < |rows| && rows[j].key == e.key;
      assert mid[j].key == e.key;
    }
  }

  /** What a batch of upserts does to a table whose keys are unique. */
  lemma {:induction false} UpsertAllShape<K, D>(rows: seq<Row<K, D>>, entries: seq<Row<K, D>>)
    requires KeysUnique(rows)
    ensures KeepsRows(rows, entries, UpsertAll(rows, entries))
    ensures AppliesEntries(rows, entries, UpsertAll(rows, entries))
    decreases |entries|
  {
    if entries != [] {
      var n := |entries| - 1;
      var pre, e := entries[..n], entries[n];
      assert entries == pre + [e];
      UpsertAllShape(rows, pre);
      KeepsRowsStep(rows, pre, e, UpsertAll(rows, pre));
      AppliesEntriesStep(rows, pre, e, UpsertAll(rows, pre));
    }
  }

  /** Upserting the same entries a second time changes nothing: no row is
      created, and every row keeps the values the first pass gave it. */
  lemma UpsertAllIdempotent<K, D>(rows: seq<Row<K, D>>, entries: seq<Row<K, D>>)
    requires KeysUnique(rows)
    ensures UpsertAll(UpsertAll(rows, entries), entries) == UpsertAll(rows, entries)
  {
    var once := UpsertAll(rows, entries);
    UpsertAllShape(rows, entries);
    UpsertAllShape(once, entries);
    var twice := UpsertAll(once, entries);
    assert |twice| == |once|;
    forall i | 0 <= i < |once| ensures twice[i] == once[i] {
      if LastValues(entries, once[i].key).Some? {
        assert twice[i].key == once[i].key;
        assert twice[i].values == once[i].values;
      }
    }
  }

  // ---------------------------------------------------------------------------
  // The table the importers write to

  class Table<K(==), D> {
    var rows: seq<Row<K, D>>

    ghost predicate Valid()
      reads this
    {
      KeysUnique(rows)
    }

    constructor ()
      ensures Valid() && rows == []
    {
      rows := [];
    }

    /** `update_or_create(key, defaults=d)`; returns the row and whether it is new. */
    method UpdateOrCreate(k: K, d: D) returns (row: Row<K, D>, created: bool)
      requires Valid()
      modifies this
      ensures Valid()
      ensures rows == Upsert(old(rows), k, d)
      ensures row == Row(k, d)
      ensures created <==> !HasRow(old(rows), k)
    {
      var i := 0;
      while i < |rows|
        invariant 0 <= i <= |rows|
        invariant forall j | 0 <= j < i :: rows[j].key != k
      {
        if rows[i].key == k {
          assert IndexOf(rows, k) == Some(i);
          UpsertSpec(rows, k, d);
          rows := rows[i := Row(k, d)];
          return Row(k, d), false;
        }
        i := i + 1;
      }
      UpsertSpec(rows, k, d);
      rows := rows + [Row(k, d)];
      row, created := Row(k, d), true;
    }

    /** The importers' loop: derive one entry per remote item and upsert it,
        collecting the returned rows; the first item that cannot be derived
        raises, and the rows written before it stay written. */
    method ImportEntries<X, E>(items: seq<X>, derive: X -> Result<Row<K, D>, E>)
      returns (r: Result<seq<Row<K, D>>, E>)
      requires Valid()
      modifies this
      ensures Valid()
      ensures var plan := DeriveAll(items, derive);
        && rows == UpsertAll(old(rows), plan.rows)
        && (r.Ok? <==> plan.failure.None?)
        && (r.Ok? ==> r.value == plan.rows && |r.value| == |items|)
        && (r.Err? ==> r.error == plan.failure.value)
    {
      ghost var rows0, plan := rows, DeriveAll(items, derive);
      DeriveAllSpec(items, derive);
      var out: seq<Row<K, D>> := [];
      var i := 0;
      while i < |items|
        invariant i <= |plan.rows| && out == plan.rows[..i]
        invariant Valid() && rows == UpsertAll(rows0, out)
      {
        var entry := derive(items[i]);
        if entry.Err? {
          assert out == plan.rows;
          return Err(entry.error);
        }
        var row, _ := UpdateOrCreate(entry.value.key, entry.value.values);
        UpsertAllSnoc(rows0, out, row);
        out := out + [row];
        i := i + 1;
      }
      assert out == plan.rows;
      r := Ok(out);
    }
  }
}
