/**
 * The store adapter: how `insert_batch` turns fetched items into table rows
 * and upserts them keyed by id, and the Y/N flag coercion it uses.
 */
module Store {
  import opened Wrappers
  import opened Json
  import opened Entities

  /**
   * The mapped columns of one row. Only a few columns per table are carried:
   * the required ones (whose absence raises KeyError), the ones with defaults
   * and the ones computed from nested objects or Y/N flags.
   */
  datatype Row =
    | DealRow(title: Value, amount: Value, status: Value)
    | TaskRow(title: Value, priority: Value, multitask: bool, statusChangedBy: Value,
              status: Value, creator: Value, responsible: Value)
    | ProjectRow(active: Value, subjectId: Value, name: Value, initiatePerms: Value)

  /** A table: rows keyed by the record identifier (the primary key). */
  type Table = map<Value, Row>

  /** `convert_yn_to_bool`: "Y" is true, "N" and everything else false. */
  function YnToBool(v: Value): (b: bool)
    ensures b <==> v == Str("Y")
  {
    if v == Str("Y") then true
    else if v == Str("N") then false
    else false
  }

  /** The identifier key of a record: `id` for tasks, `ID` otherwise. */
  function IdKey(e: Entity): string {
    if e == Tasks then "id" else "ID"
  }

  /** An item `insert_batch` keeps: a dict carrying the identifier key. */
  predicate Keyed(e: Entity, item: Value) {
    item.Object? && IdKey(e) in item.fields
  }

  /**
   * `float(item.get("OPPORTUNITY", 0) or 0)`: a missing or falsy amount is 0;
   * a list or dict raises TypeError (None). Other values are kept as they are.
   */
  function DealAmount(f: map<string, Value>): (r: Option<Value>)
    ensures r.None? <==> "OPPORTUNITY" in f && Truthy(f["OPPORTUNITY"])
                         && (f["OPPORTUNITY"].List? || f["OPPORTUNITY"].Object?)
    ensures ("OPPORTUNITY" !in f || !Truthy(f["OPPORTUNITY"])) ==> r == Some(Int(0))
  {
    var v := Get(f, "OPPORTUNITY", Int(0));
    var w := if Truthy(v) then v else Int(0);
    if w.List? || w.Object? then None else Some(w)
  }

  /** `item.get(key, {}).get("id", "0")`: raises AttributeError (None) on a non-dict. */
  function NestedId(f: map<string, Value>, key: string): (r: Option<Value>)
    ensures key !in f ==> r == Some(Str("0"))
    ensures key in f ==> (r.Some? <==> f[key].Object?)
  {
    if key !in f then Some(Str("0"))
    else match f[key]
      case Object(g) => Some(Get(g, "id", Str("0")))
      case _ => None
  }

  /** The row of one kept item, or None when building it raises. */
  function MapRow(e: Entity, f: map<string, Value>): (r: Option<Row>)
    ensures e == Deals ==> (r.Some? <==> "TITLE" in f && "STAGE_ID" in f && DealAmount(f).Some?)
    ensures e == Deals && r.Some? ==> r.value == DealRow(f["TITLE"], DealAmount(f).value, f["STAGE_ID"])
    ensures e == Projects ==> (r.Some? <==> "SUBJECT_ID" in f && "NAME" in f && "INITIATE_PERMS" in f)
    ensures e == Tasks ==> (r.Some? <==> NestedId(f, "creator").Some? && NestedId(f, "responsible").Some?)
  {
    match e
    case Deals =>
      if "TITLE" !in f || "STAGE_ID" !in f then None
      else (match DealAmount(f)
        case None => None
        case Some(a) => Some(DealRow(f["TITLE"], a, f["STAGE_ID"])))
    case Tasks =>
      var creator := NestedId(f, "creator");
      var responsible := NestedId(f, "responsible");
      if creator.None? || responsible.None? then None
      else
        var changedBy := Get(f, "statusChangedBy", Null);
        Some(TaskRow(Get(f, "title", Str("")), Get(f, "priority", Str("1")),
                     YnToBool(Get(f, "multitask", Str("N"))),
                     if changedBy != Null then changedBy else Str("0"),
                     Get(f, "status", Str("2")), creator.value, responsible.value))
    case Projects =>
      if "SUBJECT_ID" !in f || "NAME" !in f || "INITIATE_PERMS" !in f then None
      else Some(ProjectRow(Get(f, "ACTIVE", Null), f["SUBJECT_ID"], f["NAME"], f["INITIATE_PERMS"]))
  }

  /** The items `insert_batch` keeps, in order. */
  function KeptItems(e: Entity, items: seq<Value>): (r: seq<Value>)
    ensures |r| <= |items|
    ensures forall v :: v in r <==> v in items && Keyed(e, v)
    ensures forall i | 0 <= i < |r| :: Keyed(e, r[i])
  {
    if items == [] then []
    else if Keyed(e, items[0]) then [items[0]] + KeptItems(e, items[1..])
    else KeptItems(e, items[1..])
  }

  /** Filtering distributes over concatenation: the kept items keep their order. */
  lemma {:induction false} KeptItemsConcat(e: Entity, a: seq<Value>, b: seq<Value>)
    ensures KeptItems(e, a + b) == KeptItems(e, a) + KeptItems(e, b)
    decreases |a|
  {
    if a == [] {
      assert a + b == b;
    } else {
      assert (a + b)[0] == a[0] && (a + b)[1..] == a[1..] + b;
      KeptItemsConcat(e, a[1..], b);
    }
  }

  /**
   * The item at position `i` is kept exactly when it is keyed, after the kept
   * items before it and before the kept items after it.
   */
  lemma KeptItemsAt(e: Entity, items: seq<Value>, i: nat)
    requires i < |items|
    ensures KeptItems(e, items)
            == KeptItems(e, items[..i]) + (if Keyed(e, items[i]) then [items[i]] else [])
               + KeptItems(e, items[i + 1..])
  {
    assert items == items[..i] + ([items[i]] + items[i + 1..]);
    KeptItemsConcat(e, items[..i], [items[i]] + items[i + 1..]);
    assert ([items[i]] + items[i + 1..])[1..] == items[i + 1..];
  }

  /**
   * The filtered list comprehension of `insert_batch`: an (id, row) pair per
   * kept item, in order, or None when mapping any kept item raises.
   */
  function MapRows(e: Entity, items: seq<Value>): (r: Option<seq<(Value, Row)>>)
    ensures r.Some? <==> forall v :: v in items && Keyed(e, v) ==> MapRow(e, v.fields).Some?
    ensures r.Some? ==> |r.value| == |KeptItems(e, items)|
  {
    if items == [] then Some([])
    else
      var rest := MapRows(e, items[1..]);
      if !Keyed(e, items[0]) then rest
      else match MapRow(e, items[0].fields)
        case None => None
        case Some(row) =>
          if rest.None? then None
          else Some([(items[0].fields[IdKey(e)], row)] + rest.value)
  }

  /** The `i`-th pair is the id and the row of the `i`-th kept item. */
  lemma {:induction false} MapRowsPairs(e: Entity, items: seq<Value>, i: nat)
    requires MapRows(e, items).Some? && i < |KeptItems(e, items)|
    ensures var kept := KeptItems(e, items);
            MapRows(e, items).value[i].0 == kept[i].fields[IdKey(e)]
            && Some(MapRows(e, items).value[i].1) == MapRow(e, kept[i].fields)
    decreases |items|
  {
    var rest, kept := MapRows(e, items[1..]), KeptItems(e, items[1..]);
    if !Keyed(e, items[0]) {
      assert MapRows(e, items) == rest && KeptItems(e, items) == kept;
      MapRowsPairs(e, items[1..], i);
    } else {
      var pairs := [(items[0].fields[IdKey(e)], MapRow(e, items[0].fields).value)] + rest.value;
      assert MapRows(e, items) == Some(pairs) && KeptItems(e, items) == [items[0]] + kept;
      if i > 0 {
        MapRowsPairs(e, items[1..], i - 1);
        assert pairs[i] == rest.value[i - 1];
      }
    }
  }

  /** `execute_batch`: the rows executed one after another, each an upsert. */
  function ApplyRows(t: Table, rows: seq<(Value, Row)>): Table
  {
    if rows == [] then t
    else
      var last := rows[|rows| - 1];
      ApplyRows(t, rows[..|rows| - 1])[last.0 := last.1]
  }

  /** The rows a batch writes, by id: for a repeated id, its last row. */
  function RowsMap(rows: seq<(Value, Row)>): map<Value, Row>
  {
    if rows == [] then map[]
    else
      var last := rows[|rows| - 1];
      RowsMap(rows[..|rows| - 1])[last.0 := last.1]
  }

  /**
   * `insert_batch`: nothing for an empty list; otherwise the kept items'
   * rows upserted, all or nothing — when building a row raises or the
   * database refuses the transaction (`accepted` false), the table is unchanged.
   */
  function UpsertBatch(t: Table, e: Entity, items: seq<Value>, accepted: bool): (r: Table)
    ensures items == [] ==> r == t
    ensures (!accepted || MapRows(e, items).None?) ==> r == t
    ensures accepted && MapRows(e, items).Some? ==> r == t + RowsMap(MapRows(e, items).value)
  {
    if items == [] then t
    else match MapRows(e, items)
      case None => t
      case Some(rows) =>
        if !accepted then t
        else
          ApplyRowsIsUnion(t, rows);
          ApplyRows(t, rows)
  }

  /** Executing the rows one by one is the same as merging their by-id map. */
  lemma {:induction false} ApplyRowsIsUnion(t: Table, rows: seq<(Value, Row)>)
    ensures ApplyRows(t, rows) == t + RowsMap(rows)
  {
    if rows != [] {
      var front, last := rows[..|rows| - 1], rows[|rows| - 1];
      ApplyRowsIsUnion(t, front);
      assert ApplyRows(t, rows) == (t + RowsMap(front))[last.0 := last.1];
      assert RowsMap(rows) == RowsMap(front)[last.0 := last.1];
    }
  }

  /** The ids a batch writes are exactly the ids of its rows. */
  lemma {:induction false} RowsMapKeys(rows: seq<(Value, Row)>)
    ensures RowsMap(rows).Keys == set p | p in rows :: p.0
  {
    if rows != [] {
      var front, last := rows[..|rows| - 1], rows[|rows| - 1];
      RowsMapKeys(front);
      assert rows == front + [last];
      assert (set p | p in rows :: p.0) == (set p | p in front :: p.0) + {last.0};
    }
  }

  /** For a repeated id the row of its last occurrence wins. */
  lemma {:induction false} RowsMapLastWins(rows: seq<(Value, Row)>, j: nat)
    requires j < |rows|
    requires forall k :: j < k < |rows| ==> rows[k].0 != rows[j].0
    ensures rows[j].0 in RowsMap(rows) && RowsMap(rows)[rows[j].0] == rows[j].1
  {
    var front, last := rows[..|rows| - 1], rows[|rows| - 1];
    if j < |rows| - 1 {
      RowsMapLastWins(front, j);
    }
  }

  /** Upserting the same batch twice leaves the table as upserting it once. */
  lemma UpsertIdempotent(t: Table, e: Entity, items: seq<Value>, accepted: bool)
    ensures UpsertBatch(UpsertBatch(t, e, items, accepted), e, items, accepted)
            == UpsertBatch(t, e, items, accepted)
  {
    if items != [] && accepted && MapRows(e, items).Some? {
      var m := RowsMap(MapRows(e, items).value);
      assert (t + m) + m == t + m;
    }
  }

  /** Items that are not dicts or lack the id key do not affect the result. */
  lemma {:induction false} MapRowsIgnoresUnkeyed(e: Entity, items: seq<Value>)
    ensures MapRows(e, items) == MapRows(e, KeptItems(e, items))
  {
    if items != [] {
      MapRowsIgnoresUnkeyed(e, items[1..]);
      if Keyed(e, items[0]) {
        assert KeptItems(e, items)[1..] == KeptItems(e, items[1..]);
      }
    }
  }

  /** A batch behaves as the batch of its kept items alone. */
  lemma UpsertDropsUnkeyed(t: Table, e: Entity, items: seq<Value>, accepted: bool)
    ensures UpsertBatch(t, e, items, accepted) == UpsertBatch(t, e, KeptItems(e, items), accepted)
  {
    MapRowsIgnoresUnkeyed(e, items);
    if items != [] && KeptItems(e, items) == [] {
      assert MapRows(e, items) == Some([]);
      assert RowsMap([]) == map[];
    }
  }

  /** Every row of a batch carries the id of a kept item. */
  lemma RowIdKept(e: Entity, items: seq<Value>, p: (Value, Row))
    requires MapRows(e, items).Some? && p in MapRows(e, items).value
    ensures exists v :: v in items && Keyed(e, v) && v.fields[IdKey(e)] == p.0
  {
    var rows, kept := MapRows(e, items).value, KeptItems(e, items);
    var i :| 0 <= i < |rows| && rows[i] == p;
    MapRowsPairs(e, items, i);
    assert kept[i] in kept;
  }

  /** Every kept item's id is carried by a row of the batch. */
  lemma KeptIdRow(e: Entity, items: seq<Value>, v: Value)
    requires MapRows(e, items).Some? && v in items && Keyed(e, v)
    ensures exists p :: p in MapRows(e, items).value && p.0 == v.fields[IdKey(e)]
  {
    var rows, kept := MapRows(e, items).value, KeptItems(e, items);
    var i :| 0 <= i < |kept| && kept[i] == v;
    MapRowsPairs(e, items, i);
    assert rows[i] in rows;
  }

  /**
   * After a committed batch, an id is in the table exactly when it was
   * before or some kept item carries it; a row whose id no kept item
   * carries is as before.
   */
  lemma UpsertLookup(t: Table, e: Entity, items: seq<Value>, k: Value)
    requires MapRows(e, items).Some?
    ensures var r := UpsertBatch(t, e, items, true);
            && (k in r <==> k in t || exists v :: v in items && Keyed(e, v) && v.fields[IdKey(e)] == k)
            && ((forall v :: v in items && Keyed(e, v) ==> v.fields[IdKey(e)] != k) ==> (k in t ==> r[k] == t[k]))
  {
    var rows := MapRows(e, items).value;
    RowsMapKeys(rows);
    if p :| p in rows && p.0 == k {
      RowIdKept(e, items, p);
    }
    if v :| v in items && Keyed(e, v) && v.fields[IdKey(e)] == k {
      KeptIdRow(e, items, v);
    }
  }

  /**
   * After a committed batch, the id of a kept item holds the row of the last
   * kept item carrying that id.
   */
  lemma UpsertLastWins(t: Table, e: Entity, items: seq<Value>, j: nat)
    requires MapRows(e, items).Some? && j < |KeptItems(e, items)|
    requires var kept := KeptItems(e, items);
             forall k :: j < k < |kept| ==> kept[k].fields[IdKey(e)] != kept[j].fields[IdKey(e)]
    ensures var kept := KeptItems(e, items);
            var r := UpsertBatch(t, e, items, true);
            kept[j].fields[IdKey(e)] in r && Some(r[kept[j].fields[IdKey(e)]]) == MapRow(e, kept[j].fields)
  {
    var rows, kept := MapRows(e, items).value, KeptItems(e, items);
    forall k | j < k < |rows|
      ensures rows[k].0 != rows[j].0
    {
      MapRowsPairs(e, items, k);
      MapRowsPairs(e, items, j);
    }
    MapRowsPairs(e, items, j);
    RowsMapLastWins(rows, j);
  }
}
