/**
 * The entity graph of docs/main.ts: one class per entity. The row callback
 * `loadData` runs for every entry is a constructor (with the children it
 * maps `tableData`, `groupData`, ... to); `CreateAll` runs it over the entries
 * in order, and `Load` hands the created rows to `Tables.LoadData`.
 *
 * A row resolves its forward references against tables loaded earlier and
 * appends itself to the back-reference list of every target that resolves.
 * Every `Load` returns, besides the table, the ghost sequence `rows` of the
 * objects it created, one per entry and in entry order: a repeated key
 * leaves an earlier object out of the table, but that object's
 * back-references stay where they were appended.
 */
module Entities {
  import opened Tables
  import opened Rows

  // ---------------------------------------------------------------------
  // Text

  class TextData {
    const raw: TextRow
    const text: Option<string>

    constructor (row: TextRow, text: Option<string>)
      ensures raw == row && this.text == text
    {
      raw := row;
      this.text := text;
    }

    /** The row callback of `TextData.load` (docs/main.ts:37-41), entry by
        entry. */
    static method CreateAll(es: seq<Entry<TextRow>>, textField: string, langField: string)
      returns (made: seq<TextData>)
      requires forall e :: e in es ==> textField in e.value.fields
      ensures |made| == |es| && Distinct(made)
      ensures forall i :: 0 <= i < |made| ==>
                fresh(made[i]) && made[i].raw == es[i].value
                && made[i].text == TextOf(made[i].raw, textField, langField)
    {
      made := [];
      for i := 0 to |es|
        invariant |made| == i && Distinct(made)
        invariant forall j :: 0 <= j < i ==>
                    fresh(made[j]) && made[j].raw == es[j].value
                    && made[j].text == TextOf(made[j].raw, textField, langField)
      {
        assert es[i] in es;
        var text := new TextData(es[i].value, TextOf(es[i].value, textField, langField));
        DistinctSnoc(made, text);
        made := made + [text];
      }
    }

    /** `TextData.load` (docs/main.ts:36-42). */
    static method Load(resp: Response<TextRow>, textField: string, langField: string)
      returns (t: Table<string, TextData>, ghost rows: seq<TextData>)
      requires forall e :: e in Entries(resp) ==> textField in e.value.fields
      ensures |rows| == |Entries(resp)| && Distinct(rows)
      ensures t == Build(NormalKeys(Entries(resp)), rows)
      ensures forall i :: 0 <= i < |rows| ==>
                fresh(rows[i]) && rows[i].raw == Entries(resp)[i].value
                && rows[i].text == TextOf(rows[i].raw, textField, langField)
    {
      var made := CreateAll(Entries(resp), textField, langField);
      t := LoadData(resp, made);
      rows := made;
    }
  }

  function TextRaw(x: TextData): TextRow {
    x.raw
  }

  /** The display string of a text row: element 0's language field of the
      array under `textField`, or null when that array is empty (a missing
      language field is JavaScript's `undefined`, also `None` here). */
  function TextOf(row: TextRow, textField: string, langField: string): (r: Option<string>)
    requires textField in row.fields
    ensures |row.fields[textField]| == 0 ==> r.None?
    ensures r.Some? ==> langField in row.fields[textField][0] && r.value == row.fields[textField][0][langField]
    ensures |row.fields[textField]| > 0 && langField in row.fields[textField][0] ==> r.Some?
  {
    var info := row.fields[textField];
    if |info| == 0 then None
    else if langField in info[0] then Some(info[0][langField])
    else None
  }

  // ---------------------------------------------------------------------
  // Items and item tables

  class ItemData {
    const raw: ItemRow
    const name: Option<TextData>
    const desc: Option<TextData>
    var tables: seq<ItemTableDetail>
    var materialFor: seq<RecipeItemInfo>
    var createdBy: seq<RecipeData>
    var shops: seq<ShopItemInfo>

    /** The state loading leaves an item in: built from `row`, its name and
        description resolved, on no back-reference list yet. */
    ghost predicate Initial(row: ItemRow, names: Table<string, TextData>, descs: Table<string, TextData>)
      reads this
    {
      && raw == row
      && name == GetProperty(names, row.nameId) && desc == GetProperty(descs, row.descId)
      && tables == [] && materialFor == [] && createdBy == [] && shops == []
    }

    /** The row callback of `ItemData.load` (docs/main.ts:54-59). */
    constructor (row: ItemRow, names: Table<string, TextData>, descs: Table<string, TextData>)
      ensures Initial(row, names, descs)
    {
      raw := row;
      name := GetProperty(names, row.nameId);
      desc := GetProperty(descs, row.descId);
      tables, materialFor, createdBy, shops := [], [], [], [];
    }

    static method CreateAll(es: seq<Entry<ItemRow>>, names: Table<string, TextData>, descs: Table<string, TextData>)
      returns (made: seq<ItemData>)
      ensures |made| == |es| && Distinct(made)
      ensures forall i :: 0 <= i < |made| ==> fresh(made[i]) && made[i].Initial(es[i].value, names, descs)
    {
      made := [];
      for i := 0 to |es|
        invariant |made| == i && Distinct(made)
        invariant forall j :: 0 <= j < i ==> fresh(made[j]) && made[j].Initial(es[j].value, names, descs)
      {
        var item := new ItemData(es[i].value, names, descs);
        DistinctSnoc(made, item);
        made := made + [item];
      }
    }

    /** `ItemData.load` (docs/main.ts:53-60). */
    static method Load(resp: Response<ItemRow>, names: Table<string, TextData>, descs: Table<string, TextData>)
      returns (t: Table<string, ItemData>, ghost rows: seq<ItemData>)
      ensures |rows| == |Entries(resp)| && Distinct(rows)
      ensures t == Build(NormalKeys(Entries(resp)), rows)
      ensures forall i :: 0 <= i < |rows| ==> fresh(rows[i]) && rows[i].Initial(Entries(resp)[i].value, names, descs)
    {
      var made := CreateAll(Entries(resp), names, descs);
      t := LoadData(resp, made);
      rows := made;
    }
  }

  function ItemRaw(x: ItemData): ItemRow {
    x.raw
  }

  class ItemTableDetail {
    const raw: DetailRow
    const table: ItemTableSetting
    const item: Option<ItemData>

    /** docs/main.ts:67-74: resolve `ItemId`; when it resolves, append this
        detail to that item's `tables`. */
    constructor (row: DetailRow, table: ItemTableSetting, items: Table<string, ItemData>)
      modifies items.rows.Values`tables
      ensures raw == row && this.table == table && item == GetProperty(items, row.itemId)
      ensures forall x :: x in items.rows.Values ==>
                x.tables == old(x.tables) + if item == Some(x) then [this] else []
    {
      raw := row;
      this.table := table;
      item := GetProperty(items, row.itemId);
      new;
      if item.Some? {
        item.value.tables := item.value.tables + [this];
      }
    }
  }

  function DetailItem(d: ItemTableDetail): Option<ItemData> {
    d.item
  }

  function DetailTable(d: ItemTableDetail): ItemTableSetting {
    d.table
  }

  class ItemTableSetting {
    const raw: TableRow
    var data: seq<ItemTableDetail>
    var groups: seq<ItemTableGroupData>

    /** `data` holds one new detail per element of `tableData`, in order,
        each owned by this table and resolved against `items`. */
    ghost predicate Holds(items: Table<string, ItemData>)
      reads this`data
    {
      && |data| == |raw.tableData| && Distinct(data)
      && forall j :: 0 <= j < |data| ==>
           data[j].raw == raw.tableData[j] && data[j].table == this
           && data[j].item == GetProperty(items, raw.tableData[j].itemId)
    }

    /** The state loading leaves a table in: built from `row`, and not
        yet in any group. */
    ghost predicate Initial(row: TableRow, items: Table<string, ItemData>)
      reads this
    {
      raw == row && groups == [] && Holds(items)
    }

    /** `new ItemTableSetting(data)` followed by mapping `tableData` to
        details (docs/main.ts:83-84). */
    constructor (row: TableRow, items: Table<string, ItemData>)
      modifies items.rows.Values`tables
      ensures Initial(row, items)
      ensures forall j :: 0 <= j < |data| ==> fresh(data[j])
      ensures forall x :: x in items.rows.Values ==>
                x.tables == old(x.tables) + Linked(data, DetailItem, x)
    {
      raw := row;
      data, groups := [], [];
      new;
      for j := 0 to |row.tableData|
        invariant |data| == j && groups == []
        invariant forall k :: 0 <= k < j ==>
                    data[k].raw == raw.tableData[k] && data[k].table == this
                    && data[k].item == GetProperty(items, raw.tableData[k].itemId)
        invariant Distinct(data) && forall k :: 0 <= k < j ==> fresh(data[k])
        invariant forall x :: x in items.rows.Values ==>
                    x.tables == old(x.tables) + Linked(data, DetailItem, x)
      {
        var d := new ItemTableDetail(row.tableData[j], this, items);
        forall x | x in items.rows.Values
          ensures old(x.tables) + Linked(data + [d], DetailItem, x)
               == old(x.tables) + Linked(data, DetailItem, x) + if DetailItem(d) == Some(x) then [d] else []
        {
          LinkedSnoc(old(x.tables), data, d, DetailItem, x);
        }
        DistinctSnoc(data, d);
        data := data + [d];
      }
    }

    /** The rows `made` so far: all different, each in the state its
        callback left it in, holding the children `kids` records for it. */
    static ghost predicate Made(made: seq<ItemTableSetting>, es: seq<Entry<TableRow>>, items: Table<string, ItemData>,
                                kids: seq<seq<ItemTableDetail>>)
      reads made
    {
      && |made| == |kids| <= |es| && Distinct(made)
      && forall j :: 0 <= j < |made| ==> made[j].Initial(es[j].value, items) && made[j].data == kids[j]
    }

    static lemma MadeSnoc(made: seq<ItemTableSetting>, es: seq<Entry<TableRow>>, items: Table<string, ItemData>,
                          kids: seq<seq<ItemTableDetail>>, r: ItemTableSetting)
      requires Made(made, es, items, kids) && |made| < |es|
      requires r !in made && r.Initial(es[|made|].value, items)
      ensures Made(made + [r], es, items, kids + [r.data])
    {
      DistinctConcat(made, [r]);
    }

    /** The row callback of `ItemTableSetting.load`, entry by entry;
        `kids[i]` are the details of table i. */
    static method CreateAll(es: seq<Entry<TableRow>>, items: Table<string, ItemData>)
      returns (made: seq<ItemTableSetting>, ghost kids: seq<seq<ItemTableDetail>>)
      modifies items.rows.Values`tables
      ensures |made| == |es| && |kids| == |es| && Distinct(made)
      ensures forall i :: 0 <= i < |made| ==>
                fresh(made[i]) && made[i].Initial(es[i].value, items) && made[i].data == kids[i]
      ensures forall x :: x in items.rows.Values ==>
                x.tables == old(x.tables) + Linked(Flatten(kids), DetailItem, x)
      ensures forall j, c :: 0 <= j < |kids| && c in kids[j] ==> fresh(c)
    {
      made, kids := [], [];
      for i := 0 to |es|
        invariant |made| == i && Made(made, es, items, kids)
        invariant forall j :: 0 <= j < i ==> fresh(made[j])
        invariant forall j, c :: 0 <= j < |kids| && c in kids[j] ==> fresh(c)
        invariant forall x :: x in items.rows.Values ==>
                    x.tables == old(x.tables) + Linked(Flatten(kids), DetailItem, x)
      {
        var s := new ItemTableSetting(es[i].value, items);
        MadeSnoc(made, es, items, kids, s);
        ghost var sd := s.data;
        FlattenSnoc(kids, sd);
        forall x | x in items.rows.Values
          ensures old(x.tables) + Linked(Flatten(kids) + sd, DetailItem, x)
               == old(x.tables) + Linked(Flatten(kids), DetailItem, x) + Linked(sd, DetailItem, x)
        {
          LinkedExtend(old(x.tables), Flatten(kids), sd, DetailItem, x);
        }
        kids := kids + [sd];
        made := made + [s];
      }
    }

    /** The children of all created rows: no child twice, each owned by
        a created row, and every row's children among them. This only
        applies `Tables.FlattenDistinct` to this row type's owner. */
    static lemma Owners(es: seq<Entry<TableRow>>, items: Table<string, ItemData>,
                        made: seq<ItemTableSetting>, kids: seq<seq<ItemTableDetail>>)
      requires |made| == |es| && |kids| == |es|
      requires forall i :: 0 <= i < |made| ==> made[i].Initial(es[i].value, items) && made[i].data == kids[i]
      requires Distinct(made)
      ensures Distinct(Flatten(kids)) && forall c :: c in Flatten(kids) ==> DetailTable(c) in made
      ensures forall i, c :: 0 <= i < |made| && c in made[i].data ==> c in Flatten(kids)
    {
      FlattenDistinct(made, kids, DetailTable);
    }

    /** `ItemTableSetting.load` (docs/main.ts:81-87). `details` are the
        details of every created table, table by table. */
    static method Load(resp: Response<TableRow>, items: Table<string, ItemData>)
      returns (t: Table<string, ItemTableSetting>, ghost rows: seq<ItemTableSetting>,
               ghost kids: seq<seq<ItemTableDetail>>, ghost details: seq<ItemTableDetail>)
      modifies items.rows.Values`tables
      ensures |rows| == |Entries(resp)| && Distinct(rows)
      ensures t == Build(NormalKeys(Entries(resp)), rows)
      ensures forall i :: 0 <= i < |rows| ==> fresh(rows[i]) && rows[i].Initial(Entries(resp)[i].value, items)
      ensures |kids| == |rows| && (forall i :: 0 <= i < |rows| ==> rows[i].data == kids[i]) && details == Flatten(kids)
      ensures Distinct(details) && forall d :: d in details ==> d.table in rows
      ensures forall i, d :: 0 <= i < |rows| && d in rows[i].data ==> d in details
      ensures forall x :: x in items.rows.Values ==>
                x.tables == old(x.tables) + Linked(details, DetailItem, x)
      ensures forall d :: d in details ==> fresh(d)
    {
      var made;
      made, kids := CreateAll(Entries(resp), items);
      Owners(Entries(resp), items, made, kids);
      t := LoadData(resp, made);
      rows, details := made, Flatten(kids);
      forall c | c in details ensures fresh(c) {
        FlattenMember(kids, c);
      }
    }
  }

  function TableRaw(x: ItemTableSetting): TableRow {
    x.raw
  }

  class ItemTableGroupData {
    const raw: GroupEntryRow
    const group: ItemTableGroupSetting
    const table: Option<ItemTableSetting>

    /** docs/main.ts:94-101: resolve `tableId`; when it resolves, append
        this entry to that table's `groups`. */
    constructor (row: GroupEntryRow, group: ItemTableGroupSetting, tables: Table<string, ItemTableSetting>)
      modifies tables.rows.Values`groups
      ensures raw == row && this.group == group && table == GetProperty(tables, row.tableId)
      ensures forall x :: x in tables.rows.Values ==>
                x.groups == old(x.groups) + if table == Some(x) then [this] else []
    {
      raw := row;
      this.group := group;
      table := GetProperty(tables, row.tableId);
      new;
      if table.Some? {
        table.value.groups := table.value.groups + [this];
      }
    }
  }

  function EntryTable(g: ItemTableGroupData): Option<ItemTableSetting> {
    g.table
  }

  function EntryGroupOf(g: ItemTableGroupData): ItemTableGroupSetting {
    g.group
  }

  class ItemTableGroupSetting {
    const raw: GroupRow
    var data: seq<ItemTableGroupData>
    var pickParams: seq<CommonPickParamData>
    var vegetableParams: seq<VegetableParamData>
    var enemies: seq<EnemyPlacementConfig>

    /** `data` holds one new entry per element of `tableData`, in order,
        each owned by this group and resolved against `tables`. */
    ghost predicate Holds(tables: Table<string, ItemTableSetting>)
      reads this`data
    {
      && |data| == |raw.tableData| && Distinct(data)
      && forall j :: 0 <= j < |data| ==>
           data[j].raw == raw.tableData[j] && data[j].group == this
           && data[j].table == GetProperty(tables, raw.tableData[j].tableId)
    }

    /** The state loading leaves a group in: built from `row`, and not yet
        the drop of any pick param or enemy. */
    ghost predicate Initial(row: GroupRow, tables: Table<string, ItemTableSetting>)
      reads this
    {
      raw == row && pickParams == [] && vegetableParams == [] && enemies == [] && Holds(tables)
    }

    /** `new ItemTableGroupSetting(data)` followed by mapping `tableData`
        to entries (docs/main.ts:112-113). */
    constructor (row: GroupRow, tables: Table<string, ItemTableSetting>)
      modifies tables.rows.Values`groups
      ensures Initial(row, tables)
      ensures forall j :: 0 <= j < |data| ==> fresh(data[j])
      ensures forall x :: x in tables.rows.Values ==>
                x.groups == old(x.groups) + Linked(data, EntryTable, x)
    {
      raw := row;
      data, pickParams, vegetableParams, enemies := [], [], [], [];
      new;
      for j := 0 to |row.tableData|
        invariant |data| == j && pickParams == [] && vegetableParams == [] && enemies == []
        invariant forall k :: 0 <= k < j ==>
                    data[k].raw == raw.tableData[k] && data[k].group == this
                    && data[k].table == GetProperty(tables, raw.tableData[k].tableId)
        invariant Distinct(data) && forall k :: 0 <= k < j ==> fresh(data[k])
        invariant forall x :: x in tables.rows.Values ==>
                    x.groups == old(x.groups) + Linked(data, EntryTable, x)
      {
        var g := new ItemTableGroupData(row.tableData[j], this, tables);
        forall x | x in tables.rows.Values
          ensures old(x.groups) + Linked(data + [g], EntryTable, x)
               == old(x.groups) + Linked(data, EntryTable, x) + if EntryTable(g) == Some(x) then [g] else []
        {
          LinkedSnoc(old(x.groups), data, g, EntryTable, x);
        }
        DistinctSnoc(data, g);
        data := data + [g];
      }
    }

    /** The rows `made` so far: all different, each in the state its
        callback left it in, holding the children `kids` records for it. */
    static ghost predicate Made(made: seq<ItemTableGroupSetting>, es: seq<Entry<GroupRow>>, tables: Table<string, ItemTableSetting>,
                                kids: seq<seq<ItemTableGroupData>>)
      reads made
    {
      && |made| == |kids| <= |es| && Distinct(made)
      && forall j :: 0 <= j < |made| ==> made[j].Initial(es[j].value, tables) && made[j].data == kids[j]
    }

    static lemma MadeSnoc(made: seq<ItemTableGroupSetting>, es: seq<Entry<GroupRow>>, tables: Table<string, ItemTableSetting>,
                          kids: seq<seq<ItemTableGroupData>>, r: ItemTableGroupSetting)
      requires Made(made, es, tables, kids) && |made| < |es|
      requires r !in made && r.Initial(es[|made|].value, tables)
      ensures Made(made + [r], es, tables, kids + [r.data])
    {
      DistinctConcat(made, [r]);
    }

    /** The row callback of `ItemTableGroupSetting.load`, entry by entry;
        `kids[i]` are the entries of group i. */
    static method CreateAll(es: seq<Entry<GroupRow>>, tables: Table<string, ItemTableSetting>)
      returns (made: seq<ItemTableGroupSetting>, ghost kids: seq<seq<ItemTableGroupData>>)
      modifies tables.rows.Values`groups
      ensures |made| == |es| && |kids| == |es| && Distinct(made)
      ensures forall i :: 0 <= i < |made| ==>
                fresh(made[i]) && made[i].Initial(es[i].value, tables) && made[i].data == kids[i]
      ensures forall x :: x in tables.rows.Values ==>
                x.groups == old(x.groups) + Linked(Flatten(kids), EntryTable, x)
      ensures forall j, c :: 0 <= j < |kids| && c in kids[j] ==> fresh(c)
    {
      made, kids := [], [];
      for i := 0 to |es|
        invariant |made| == i && Made(made, es, tables, kids)
        invariant forall j :: 0 <= j < i ==> fresh(made[j])
        invariant forall j, c :: 0 <= j < |kids| && c in kids[j] ==> fresh(c)
        invariant forall x :: x in tables.rows.Values ==>
                    x.groups == old(x.groups) + Linked(Flatten(kids), EntryTable, x)
      {
        var s := new ItemTableGroupSetting(es[i].value, tables);
        MadeSnoc(made, es, tables, kids, s);
        ghost var sd := s.data;
        FlattenSnoc(kids, sd);
        forall x | x in tables.rows.Values
          ensures old(x.groups) + Linked(Flatten(kids) + sd, EntryTable, x)
               == old(x.groups) + Linked(Flatten(kids), EntryTable, x) + Linked(sd, EntryTable, x)
        {
          LinkedExtend(old(x.groups), Flatten(kids), sd, EntryTable, x);
        }
        kids := kids + [sd];
        made := made + [s];
      }
    }

    /** The children of all created rows: no child twice, each owned by
        a created row, and every row's children among them. This only
        applies `Tables.FlattenDistinct` to this row type's owner. */
    static lemma Owners(es: seq<Entry<GroupRow>>, tables: Table<string, ItemTableSetting>,
                        made: seq<ItemTableGroupSetting>, kids: seq<seq<ItemTableGroupData>>)
      requires |made| == |es| && |kids| == |es|
      requires forall i :: 0 <= i < |made| ==> made[i].Initial(es[i].value, tables) && made[i].data == kids[i]
      requires Distinct(made)
      ensures Distinct(Flatten(kids)) && forall c :: c in Flatten(kids) ==> EntryGroupOf(c) in made
      ensures forall i, c :: 0 <= i < |made| && c in made[i].data ==> c in Flatten(kids)
    {
      FlattenDistinct(made, kids, EntryGroupOf);
    }

    /** `ItemTableGroupSetting.load` (docs/main.ts:110-116). `entries` are
        the entries of every created group, group by group. */
    static method Load(resp: Response<GroupRow>, tables: Table<string, ItemTableSetting>)
      returns (t: Table<string, ItemTableGroupSetting>, ghost rows: seq<ItemTableGroupSetting>,
               ghost kids: seq<seq<ItemTableGroupData>>, ghost entries: seq<ItemTableGroupData>)
      modifies tables.rows.Values`groups
      ensures |rows| == |Entries(resp)| && Distinct(rows)
      ensures t == Build(NormalKeys(Entries(resp)), rows)
      ensures forall i :: 0 <= i < |rows| ==> fresh(rows[i]) && rows[i].Initial(Entries(resp)[i].value, tables)
      ensures |kids| == |rows| && (forall i :: 0 <= i < |rows| ==> rows[i].data == kids[i]) && entries == Flatten(kids)
      ensures Distinct(entries) && forall g :: g in entries ==> g.group in rows
      ensures forall i, g :: 0 <= i < |rows| && g in rows[i].data ==> g in entries
      ensures forall x :: x in tables.rows.Values ==>
                x.groups == old(x.groups) + Linked(entries, EntryTable, x)
      ensures forall c :: c in entries ==> fresh(c)
    {
      var made;
      made, kids := CreateAll(Entries(resp), tables);
      Owners(Entries(resp), tables, made, kids);
      t := LoadData(resp, made);
      rows, entries := made, Flatten(kids);
      forall c | c in entries ensures fresh(c) {
        FlattenMember(kids, c);
      }
    }
  }

  function GroupRaw(x: ItemTableGroupSetting): GroupRow {
    x.raw
  }

  // ---------------------------------------------------------------------
  // Pick params and pick points

  class CommonPickParamData {
    const raw: CommonPickRow
    const drop: Option<ItemTableGroupSetting>
    var params: seq<PickParamData>

    /** The state loading leaves a param in: built from `row`, its drop
        resolved against `groups`, no pick param pointing at it yet. */
    ghost predicate Initial(row: CommonPickRow, groups: Table<string, ItemTableGroupSetting>)
      reads this
    {
      raw == row && drop == GetProperty(groups, row.dropTableGroupId) && params == []
    }

    /** The row callback of `CommonPickParamData.load` (docs/main.ts:125-129):
        resolve `Drop.tableGroupId`; when it resolves, append this param to
        that group's `pick_params`. */
    constructor (row: CommonPickRow, groups: Table<string, ItemTableGroupSetting>)
      modifies groups.rows.Values`pickParams
      ensures Initial(row, groups)
      ensures forall g :: g in groups.rows.Values ==>
                g.pickParams == old(g.pickParams) + if drop == Some(g) then [this] else []
    {
      raw := row;
      drop := GetProperty(groups, row.dropTableGroupId);
      params := [];
      new;
      if drop.Some? {
        drop.value.pickParams := drop.value.pickParams + [this];
      }
    }

    static method CreateAll(es: seq<Entry<CommonPickRow>>, groups: Table<string, ItemTableGroupSetting>)
      returns (made: seq<CommonPickParamData>)
      modifies groups.rows.Values`pickParams
      ensures |made| == |es| && Distinct(made)
      ensures forall i :: 0 <= i < |made| ==> fresh(made[i]) && made[i].Initial(es[i].value, groups)
      ensures forall g :: g in groups.rows.Values ==>
                g.pickParams == old(g.pickParams) + Linked(made, CommonDrop, g)
    {
      made := [];
      for i := 0 to |es|
        invariant |made| == i && Distinct(made)
        invariant forall j :: 0 <= j < i ==> fresh(made[j]) && made[j].Initial(es[j].value, groups)
        invariant forall g :: g in groups.rows.Values ==>
                    g.pickParams == old(g.pickParams) + Linked(made, CommonDrop, g)
      {
        var c := new CommonPickParamData(es[i].value, groups);
        forall g | g in groups.rows.Values
          ensures old(g.pickParams) + Linked(made + [c], CommonDrop, g)
               == old(g.pickParams) + Linked(made, CommonDrop, g) + if CommonDrop(c) == Some(g) then [c] else []
        {
          LinkedSnoc(old(g.pickParams), made, c, CommonDrop, g);
        }
        DistinctSnoc(made, c);
        made := made + [c];
      }
    }

    /** `CommonPickParamData.load` (docs/main.ts:123-133), used for both the
        common and the fishing params. */
    static method Load(resp: Response<CommonPickRow>, groups: Table<string, ItemTableGroupSetting>)
      returns (t: Table<string, CommonPickParamData>, ghost rows: seq<CommonPickParamData>)
      modifies groups.rows.Values`pickParams
      ensures |rows| == |Entries(resp)| && Distinct(rows)
      ensures t == Build(NormalKeys(Entries(resp)), rows)
      ensures forall i :: 0 <= i < |rows| ==> fresh(rows[i]) && rows[i].Initial(Entries(resp)[i].value, groups)
      ensures forall g :: g in groups.rows.Values ==>
                g.pickParams == old(g.pickParams) + Linked(rows, CommonDrop, g)
    {
      var made := CreateAll(Entries(resp), groups);
      t := LoadData(resp, made);
      rows := made;
    }
  }

  function CommonRaw(x: CommonPickParamData): CommonPickRow {
    x.raw
  }

  function CommonDrop(c: CommonPickParamData): Option<ItemTableGroupSetting> {
    c.drop
  }

  class VegetableParamData {
    const raw: VegetableRow
    var params: seq<PickParamData>

    /** The row callback of `VegetableParamData.load` (docs/main.ts:140-142):
        no drop is resolved. */
    constructor (row: VegetableRow)
      ensures raw == row && params == []
    {
      raw := row;
      params := [];
    }

    static method CreateAll(es: seq<Entry<VegetableRow>>) returns (made: seq<VegetableParamData>)
      ensures |made| == |es| && Distinct(made)
      ensures forall i :: 0 <= i < |made| ==> fresh(made[i]) && made[i].raw == es[i].value && made[i].params == []
    {
      made := [];
      for i := 0 to |es|
        invariant |made| == i && Distinct(made)
        invariant forall j :: 0 <= j < i ==> fresh(made[j]) && made[j].raw == es[j].value && made[j].params == []
      {
        var v := new VegetableParamData(es[i].value);
        DistinctSnoc(made, v);
        made := made + [v];
      }
    }

    /** `VegetableParamData.load` (docs/main.ts:139-144): the drop groups
        are passed in but no reference is resolved against them, and
        nothing outside the new params changes. */
    static method Load(resp: Response<VegetableRow>, groups: Table<string, ItemTableGroupSetting>)
      returns (t: Table<string, VegetableParamData>, ghost rows: seq<VegetableParamData>)
      ensures |rows| == |Entries(resp)| && Distinct(rows)
      ensures t == Build(NormalKeys(Entries(resp)), rows)
      ensures forall i :: 0 <= i < |rows| ==>
                fresh(rows[i]) && rows[i].raw == Entries(resp)[i].value && rows[i].params == []
    {
      var made := CreateAll(Entries(resp));
      t := LoadData(resp, made);
      rows := made;
    }
  }

  function VegetableRaw(x: VegetableParamData): VegetableRow {
    x.raw
  }

  class PickParamData {
    const raw: PickParamRow
    const common: Option<CommonPickParamData>
    const fishing: Option<CommonPickParamData>
    const vegetable: Option<VegetableParamData>
    var groups: seq<PickPointGroupData>

    /** The state loading leaves a pick param in: built from `row`, its
        three references resolved, in no pick-point group yet. */
    ghost predicate Initial(row: PickParamRow, commons: Table<string, CommonPickParamData>,
                            fishings: Table<string, CommonPickParamData>,
                            vegetables: Table<string, VegetableParamData>)
      reads this
    {
      && raw == row && groups == []
      && common == GetProperty(commons, row.commonPickDataId)
      && fishing == GetProperty(fishings, row.fishingParamDataId)
      && vegetable == GetProperty(vegetables, row.vegetableParamDataId)
    }

    /** The row callback of `PickParamData.load` (docs/main.ts:161-174).
        The third push is guarded by `fishing` and goes to `fishing.params`
        again, so a resolved fishing param receives this param twice and
        the vegetable param never receives it. */
    constructor (row: PickParamRow, commons: Table<string, CommonPickParamData>,
                 fishings: Table<string, CommonPickParamData>,
                 vegetables: Table<string, VegetableParamData>)
      modifies set c | c in Drops(commons, fishings) :: c`params
      ensures Initial(row, commons, fishings, vegetables)
      ensures forall c :: c in Drops(commons, fishings) ==>
                c.params == old(c.params) + Pushes(this, c)
    {
      raw := row;
      common := GetProperty(commons, row.commonPickDataId);
      fishing := GetProperty(fishings, row.fishingParamDataId);
      vegetable := GetProperty(vegetables, row.vegetableParamDataId);
      groups := [];
      new;
      if common.Some? {
        common.value.params := common.value.params + [this];
      }
      if fishing.Some? {
        fishing.value.params := fishing.value.params + [this];
      }
      if fishing.Some? {
        fishing.value.params := fishing.value.params + [this];
      }
    }

    static method CreateAll(es: seq<Entry<PickParamRow>>, commons: Table<string, CommonPickParamData>,
                            fishings: Table<string, CommonPickParamData>,
                            vegetables: Table<string, VegetableParamData>)
      returns (made: seq<PickParamData>)
      modifies set c | c in Drops(commons, fishings) :: c`params
      ensures |made| == |es| && Distinct(made)
      ensures forall i :: 0 <= i < |made| ==>
                fresh(made[i]) && made[i].Initial(es[i].value, commons, fishings, vegetables)
      ensures forall c :: c in Drops(commons, fishings) ==>
                c.params == old(c.params) + PickAppends(made, c)
      ensures forall v :: v in vegetables.rows.Values ==> v.params == old(v.params)
    {
      made := [];
      for i := 0 to |es|
        invariant |made| == i && Distinct(made)
        invariant forall j :: 0 <= j < i ==>
                    fresh(made[j]) && made[j].Initial(es[j].value, commons, fishings, vegetables)
        invariant forall c :: c in Drops(commons, fishings) ==>
                    c.params == old(c.params) + PickAppends(made, c)
        invariant forall v :: v in vegetables.rows.Values ==> v.params == old(v.params)
      {
        var p := new PickParamData(es[i].value, commons, fishings, vegetables);
        forall c | c in Drops(commons, fishings)
          ensures old(c.params) + PickAppends(made + [p], c) == old(c.params) + PickAppends(made, c) + Pushes(p, c)
        {
          PickAppendsSnoc(old(c.params), made, p, c);
        }
        DistinctSnoc(made, p);
        made := made + [p];
      }
    }

    /** `PickParamData.load` (docs/main.ts:154-176). */
    static method Load(resp: Response<PickParamRow>, commons: Table<string, CommonPickParamData>,
                       fishings: Table<string, CommonPickParamData>,
                       vegetables: Table<string, VegetableParamData>)
      returns (t: Table<string, PickParamData>, ghost rows: seq<PickParamData>)
      modifies set c | c in Drops(commons, fishings) :: c`params
      ensures |rows| == |Entries(resp)| && Distinct(rows)
      ensures t == Build(NormalKeys(Entries(resp)), rows)
      ensures forall i :: 0 <= i < |rows| ==>
                fresh(rows[i]) && rows[i].Initial(Entries(resp)[i].value, commons, fishings, vegetables)
      ensures forall c :: c in Drops(commons, fishings) ==>
                c.params == old(c.params) + PickAppends(rows, c)
      ensures forall v :: v in vegetables.rows.Values ==> v.params == old(v.params)
    {
      var made := CreateAll(Entries(resp), commons, fishings, vegetables);
      t := LoadData(resp, made);
      rows := made;
    }
  }

  function PickRaw(x: PickParamData): PickParamRow {
    x.raw
  }

  /** The common and fishing params a pick param can resolve to. */
  function Drops(commons: Table<string, CommonPickParamData>, fishings: Table<string, CommonPickParamData>): set<CommonPickParamData> {
    commons.rows.Values + fishings.rows.Values
  }

  /** What creating `p` appends to `c.params`: `p` once when `c` is its
      common param, then `p` twice more when `c` is its fishing param. */
  function Pushes(p: PickParamData, c: CommonPickParamData): (r: seq<PickParamData>)
    ensures forall q :: q in r ==> q == p
    ensures |r| == (if p.common == Some(c) then 1 else 0) + (if p.fishing == Some(c) then 2 else 0)
  {
    (if p.common == Some(c) then [p] else []) + (if p.fishing == Some(c) then [p, p] else [])
  }

  /** What creating the params `ps`, in order, appends to `c.params`. */
  function PickAppends(ps: seq<PickParamData>, c: CommonPickParamData): seq<PickParamData> {
    if ps == [] then [] else PickAppends(ps[..|ps| - 1], c) + Pushes(ps[|ps| - 1], c)
  }

  lemma PickAppendsSnoc(pre: seq<PickParamData>, ps: seq<PickParamData>, p: PickParamData, c: CommonPickParamData)
    ensures pre + PickAppends(ps + [p], c) == pre + PickAppends(ps, c) + Pushes(p, c)
  {
    assert (ps + [p])[..|ps|] == ps;
  }

  /** How often creating `q` appends `p` to `c.params`. */
  lemma PushesCount(q: PickParamData, c: CommonPickParamData, p: PickParamData)
    ensures multiset(Pushes(q, c))[p] ==
              if p == q then (if p.common == Some(c) then 1 else 0) + (if p.fishing == Some(c) then 2 else 0)
              else 0
  {
    var common: seq<PickParamData> := if q.common == Some(c) then [q] else [];
    var fishing: seq<PickParamData> := if q.fishing == Some(c) then [q, q] else [];
    assert Pushes(q, c) == common + fishing;
    assert multiset(Pushes(q, c)) == multiset(common) + multiset(fishing);
  }

  /** Among params created once each, `c.params` gains a param once for
      being its common param and twice for being its fishing param: the
      fishing param double push of docs/main.ts:166-173. */
  lemma {:induction false} PickAppendsCount(ps: seq<PickParamData>, c: CommonPickParamData, p: PickParamData)
    requires Distinct(ps)
    ensures multiset(PickAppends(ps, c))[p] ==
              if p in ps then (if p.common == Some(c) then 1 else 0) + (if p.fishing == Some(c) then 2 else 0)
              else 0
  {
    if ps != [] {
      var n := |ps| - 1;
      DistinctInit(ps);
      PickAppendsCount(ps[..n], c, p);
      PushesCount(ps[n], c, p);
      assert multiset(PickAppends(ps, c)) == multiset(PickAppends(ps[..n], c)) + multiset(Pushes(ps[n], c));
      assert p in ps <==> p in ps[..n] || p == ps[n] by {
        assert ps == ps[..n] + [ps[n]];
      }
    }
  }

  class PickPointGroupData {
    const raw: PointEntryRow
    const group: PickPointGroup
    const param: Option<PickParamData>

    /** docs/main.ts:183-190: resolve `paramId`; when it resolves, append
        this entry to that param's `groups`. */
    constructor (row: PointEntryRow, group: PickPointGroup, params: Table<string, PickParamData>)
      modifies params.rows.Values`groups
      ensures raw == row && this.group == group && param == GetProperty(params, row.paramId)
      ensures forall x :: x in params.rows.Values ==>
                x.groups == old(x.groups) + if param == Some(x) then [this] else []
    {
      raw := row;
      this.group := group;
      param := GetProperty(params, row.paramId);
      new;
      if param.Some? {
        param.value.groups := param.value.groups + [this];
      }
    }
  }

  function EntryParam(g: PickPointGroupData): Option<PickParamData> {
    g.param
  }

  function EntryGroup(g: PickPointGroupData): PickPointGroup {
    g.group
  }

  class PickPointGroup {
    const raw: PointGroupRow
    var data: seq<PickPointGroupData>
    var maps: seq<MapPickPoint>

    /** `data` holds one new entry per element of `groupData`, in order,
        each owned by this group and resolved against `params`. */
    ghost predicate Holds(params: Table<string, PickParamData>)
      reads this`data
    {
      && |data| == |raw.groupData| && Distinct(data)
      && forall j :: 0 <= j < |data| ==>
           data[j].raw == raw.groupData[j] && data[j].group == this
           && data[j].param == GetProperty(params, raw.groupData[j].paramId)
    }

    /** The state loading leaves a group in: built from `row`, on no map
        yet. */
    ghost predicate Initial(row: PointGroupRow, params: Table<string, PickParamData>)
      reads this
    {
      raw == row && maps == [] && Holds(params)
    }

    /** `new PickPointGroup(data)` followed by mapping `groupData` to
        entries (docs/main.ts:199-200). */
    constructor (row: PointGroupRow, params: Table<string, PickParamData>)
      modifies params.rows.Values`groups
      ensures Initial(row, params)
      ensures forall j :: 0 <= j < |data| ==> fresh(data[j])
      ensures forall x :: x in params.rows.Values ==>
                x.groups == old(x.groups) + Linked(data, EntryParam, x)
    {
      raw := row;
      data, maps := [], [];
      new;
      for j := 0 to |row.groupData|
        invariant |data| == j && maps == []
        invariant forall k :: 0 <= k < j ==>
                    data[k].raw == raw.groupData[k] && data[k].group == this
                    && data[k].param == GetProperty(params, raw.groupData[k].paramId)
        invariant Distinct(data) && forall k :: 0 <= k < j ==> fresh(data[k])
        invariant forall x :: x in params.rows.Values ==>
                    x.groups == old(x.groups) + Linked(data, EntryParam, x)
      {
        var g := new PickPointGroupData(row.groupData[j], this, params);
        forall x | x in params.rows.Values
          ensures old(x.groups) + Linked(data + [g], EntryParam, x)
               == old(x.groups) + Linked(data, EntryParam, x) + if EntryParam(g) == Some(x) then [g] else []
        {
          LinkedSnoc(old(x.groups), data, g, EntryParam, x);
        }
        DistinctSnoc(data, g);
        data := data + [g];
      }
    }

    /** The rows `made` so far: all different, each in the state its
        callback left it in, holding the children `kids` records for it. */
    static ghost predicate Made(made: seq<PickPointGroup>, es: seq<Entry<PointGroupRow>>, params: Table<string, PickParamData>,
                                kids: seq<seq<PickPointGroupData>>)
      reads made
    {
      && |made| == |kids| <= |es| && Distinct(made)
      && forall j :: 0 <= j < |made| ==> made[j].Initial(es[j].value, params) && made[j].data == kids[j]
    }

    static lemma MadeSnoc(made: seq<PickPointGroup>, es: seq<Entry<PointGroupRow>>, params: Table<string, PickParamData>,
                          kids: seq<seq<PickPointGroupData>>, r: PickPointGroup)
      requires Made(made, es, params, kids) && |made| < |es|
      requires r !in made && r.Initial(es[|made|].value, params)
      ensures Made(made + [r], es, params, kids + [r.data])
    {
      DistinctConcat(made, [r]);
    }

    /** The row callback of `PickPointGroup.load`, entry by entry;
        `kids[i]` are the entries of group i. */
    static method CreateAll(es: seq<Entry<PointGroupRow>>, params: Table<string, PickParamData>)
      returns (made: seq<PickPointGroup>, ghost kids: seq<seq<PickPointGroupData>>)
      modifies params.rows.Values`groups
      ensures |made| == |es| && |kids| == |es| && Distinct(made)
      ensures forall i :: 0 <= i < |made| ==>
                fresh(made[i]) && made[i].Initial(es[i].value, params) && made[i].data == kids[i]
      ensures forall x :: x in params.rows.Values ==>
                x.groups == old(x.groups) + Linked(Flatten(kids), EntryParam, x)
      ensures forall j, c :: 0 <= j < |kids| && c in kids[j] ==> fresh(c)
    {
      made, kids := [], [];
      for i := 0 to |es|
        invariant |made| == i && Made(made, es, params, kids)
        invariant forall j :: 0 <= j < i ==> fresh(made[j])
        invariant forall j, c :: 0 <= j < |kids| && c in kids[j] ==> fresh(c)
        invariant forall x :: x in params.rows.Values ==>
                    x.groups == old(x.groups) + Linked(Flatten(kids), EntryParam, x)
      {
        var s := new PickPointGroup(es[i].value, params);
        MadeSnoc(made, es, params, kids, s);
        ghost var sd := s.data;
        FlattenSnoc(kids, sd);
        forall x | x in params.rows.Values
          ensures old(x.groups) + Linked(Flatten(kids) + sd, EntryParam, x)
               == old(x.groups) + Linked(Flatten(kids), EntryParam, x) + Linked(sd, EntryParam, x)
        {
          LinkedExtend(old(x.groups), Flatten(kids), sd, EntryParam, x);
        }
        kids := kids + [sd];
        made := made + [s];
      }
    }

    /** The children of all created rows: no child twice, each owned by
        a created row, and every row's children among them. This only
        applies `Tables.FlattenDistinct` to this row type's owner. */
    static lemma Owners(es: seq<Entry<PointGroupRow>>, params: Table<string, PickParamData>,
                        made: seq<PickPointGroup>, kids: seq<seq<PickPointGroupData>>)
      requires |made| == |es| && |kids| == |es|
      requires forall i :: 0 <= i < |made| ==> made[i].Initial(es[i].value, params) && made[i].data == kids[i]
      requires Distinct(made)
      ensures Distinct(Flatten(kids)) && forall c :: c in Flatten(kids) ==> EntryGroup(c) in made
      ensures forall i, c :: 0 <= i < |made| && c in made[i].data ==> c in Flatten(kids)
    {
      FlattenDistinct(made, kids, EntryGroup);
    }

    /** `PickPointGroup.load` (docs/main.ts:197-203). `entries` are the
        entries of every created group, group by group. */
    static method Load(resp: Response<PointGroupRow>, params: Table<string, PickParamData>)
      returns (t: Table<string, PickPointGroup>, ghost rows: seq<PickPointGroup>,
               ghost kids: seq<seq<PickPointGroupData>>, ghost entries: seq<PickPointGroupData>)
      modifies params.rows.Values`groups
      ensures |rows| == |Entries(resp)| && Distinct(rows)
      ensures t == Build(NormalKeys(Entries(resp)), rows)
      ensures forall i :: 0 <= i < |rows| ==> fresh(rows[i]) && rows[i].Initial(Entries(resp)[i].value, params)
      ensures |kids| == |rows| && (forall i :: 0 <= i < |rows| ==> rows[i].data == kids[i]) && entries == Flatten(kids)
      ensures Distinct(entries) && forall g :: g in entries ==> g.group in rows
      ensures forall i, g :: 0 <= i < |rows| && g in rows[i].data ==> g in entries
      ensures forall x :: x in params.rows.Values ==>
                x.groups == old(x.groups) + Linked(entries, EntryParam, x)
      ensures forall c :: c in entries ==> fresh(c)
    {
      var made;
      made, kids := CreateAll(Entries(resp), params);
      Owners(Entries(resp), params, made, kids);
      t := LoadData(resp, made);
      rows, entries := made, Flatten(kids);
      forall c | c in entries ensures fresh(c) {
        FlattenMember(kids, c);
      }
    }
  }

  function PointGroupRaw(x: PickPointGroup): PointGroupRow {
    x.raw
  }

  class MapPickPoint {
    const raw: PickPointRow
    const mapData: MapData
    const group: Option<PickPointGroup>

    /** The row callback of `MapPickPoint.load` (docs/main.ts:212-218):
        record the map, resolve `GroupID`; when it resolves, append this
        point to that group's `maps`. */
    constructor (row: PickPointRow, mapData: MapData, groups: Table<string, PickPointGroup>)
      modifies groups.rows.Values`maps
      ensures raw == row && this.mapData == mapData && group == GetProperty(groups, row.groupId)
      ensures forall g :: g in groups.rows.Values ==>
                g.maps == old(g.maps) + if group == Some(g) then [this] else []
    {
      raw := row;
      this.mapData := mapData;
      group := GetProperty(groups, row.groupId);
      new;
      if group.Some? {
        group.value.maps := group.value.maps + [this];
      }
    }

    static method CreateAll(es: seq<Entry<PickPointRow>>, mapData: MapData, groups: Table<string, PickPointGroup>)
      returns (made: seq<MapPickPoint>)
      modifies groups.rows.Values`maps
      ensures |made| == |es| && Distinct(made)
      ensures forall i :: 0 <= i < |made| ==>
                fresh(made[i]) && made[i].raw == es[i].value && made[i].mapData == mapData
                && made[i].group == GetProperty(groups, made[i].raw.groupId)
      ensures forall g :: g in groups.rows.Values ==>
                g.maps == old(g.maps) + Linked(made, PointGroup, g)
    {
      made := [];
      for i := 0 to |es|
        invariant |made| == i && Distinct(made)
        invariant forall j :: 0 <= j < i ==>
                    fresh(made[j]) && made[j].raw == es[j].value && made[j].mapData == mapData
                    && made[j].group == GetProperty(groups, made[j].raw.groupId)
        invariant forall g :: g in groups.rows.Values ==>
                    g.maps == old(g.maps) + Linked(made, PointGroup, g)
      {
        var p := new MapPickPoint(es[i].value, mapData, groups);
        forall g | g in groups.rows.Values
          ensures old(g.maps) + Linked(made + [p], PointGroup, g)
               == old(g.maps) + Linked(made, PointGroup, g) + if PointGroup(p) == Some(g) then [p] else []
        {
          LinkedSnoc(old(g.maps), made, p, PointGroup, g);
        }
        DistinctSnoc(made, p);
        made := made + [p];
      }
    }

    /** `MapPickPoint.load` (docs/main.ts:210-220). */
    static method Load(resp: Response<PickPointRow>, mapData: MapData, groups: Table<string, PickPointGroup>)
      returns (t: Table<string, MapPickPoint>, ghost rows: seq<MapPickPoint>)
      modifies groups.rows.Values`maps
      ensures |rows| == |Entries(resp)| && Distinct(rows)
      ensures t == Build(NormalKeys(Entries(resp)), rows)
      ensures forall i :: 0 <= i < |rows| ==>
                fresh(rows[i]) && rows[i].raw == Entries(resp)[i].value && rows[i].mapData == mapData
                && rows[i].group == GetProperty(groups, rows[i].raw.groupId)
      ensures forall g :: g in groups.rows.Values ==>
                g.maps == old(g.maps) + Linked(rows, PointGroup, g)
    {
      var made := CreateAll(Entries(resp), mapData, groups);
      t := LoadData(resp, made);
      rows := made;
    }
  }

  function PointRaw(x: MapPickPoint): PickPointRow {
    x.raw
  }

  function PointGroup(p: MapPickPoint): Option<PickPointGroup> {
    p.group
  }

  // ---------------------------------------------------------------------
  // Characters

  class CharaData {
    const raw: CharaRow
    const name: Option<TextData>
    var params: seq<CharaParameter>

    ghost predicate Initial(row: CharaRow, names: Table<string, TextData>)
      reads this
    {
      raw == row && name == GetProperty(names, row.nameId) && params == []
    }

    /** The row callback of `CharaData.load` (docs/main.ts:228-232). */
    constructor (row: CharaRow, names: Table<string, TextData>)
      ensures Initial(row, names)
    {
      raw := row;
      name := GetProperty(names, row.nameId);
      params := [];
    }

    static method CreateAll(es: seq<Entry<CharaRow>>, names: Table<string, TextData>)
      returns (made: seq<CharaData>)
      ensures |made| == |es| && Distinct(made)
      ensures forall i :: 0 <= i < |made| ==> fresh(made[i]) && made[i].Initial(es[i].value, names)
    {
      made := [];
      for i := 0 to |es|
        invariant |made| == i && Distinct(made)
        invariant forall j :: 0 <= j < i ==> fresh(made[j]) && made[j].Initial(es[j].value, names)
      {
        var chara := new CharaData(es[i].value, names);
        DistinctSnoc(made, chara);
        made := made + [chara];
      }
    }

    /** `CharaData.load` (docs/main.ts:227-233). */
    static method Load(resp: Response<CharaRow>, names: Table<string, TextData>)
      returns (t: Table<string, CharaData>, ghost rows: seq<CharaData>)
      ensures |rows| == |Entries(resp)| && Distinct(rows)
      ensures t == Build(NormalKeys(Entries(resp)), rows)
      ensures forall i :: 0 <= i < |rows| ==> fresh(rows[i]) && rows[i].Initial(Entries(resp)[i].value, names)
    {
      var made := CreateAll(Entries(resp), names);
      t := LoadData(resp, made);
      rows := made;
    }
  }

  function CharaRaw(x: CharaData): CharaRow {
    x.raw
  }

  class CharaParameter {
    const raw: CharaParamRow
    const chara: Option<CharaData>
    var enemies: seq<EnemyPlacementConfig>

    ghost predicate Initial(row: CharaParamRow, charas: Table<string, CharaData>)
      reads this
    {
      raw == row && chara == GetProperty(charas, row.charaId) && enemies == []
    }

    /** The row callback of `CharaParameter.load` (docs/main.ts:241-248):
        resolve `charaID`; when it resolves, append this parameter to that
        character's `params`. */
    constructor (row: CharaParamRow, charas: Table<string, CharaData>)
      modifies charas.rows.Values`params
      ensures Initial(row, charas)
      ensures forall c :: c in charas.rows.Values ==>
                c.params == old(c.params) + if chara == Some(c) then [this] else []
    {
      raw := row;
      chara := GetProperty(charas, row.charaId);
      enemies := [];
      new;
      if chara.Some? {
        chara.value.params := chara.value.params + [this];
      }
    }

    static method CreateAll(es: seq<Entry<CharaParamRow>>, charas: Table<string, CharaData>)
      returns (made: seq<CharaParameter>)
      modifies charas.rows.Values`params
      ensures |made| == |es| && Distinct(made)
      ensures forall i :: 0 <= i < |made| ==> fresh(made[i]) && made[i].Initial(es[i].value, charas)
      ensures forall c :: c in charas.rows.Values ==>
                c.params == old(c.params) + Linked(made, ParamChara, c)
    {
      made := [];
      for i := 0 to |es|
        invariant |made| == i && Distinct(made)
        invariant forall j :: 0 <= j < i ==> fresh(made[j]) && made[j].Initial(es[j].value, charas)
        invariant forall c :: c in charas.rows.Values ==>
                    c.params == old(c.params) + Linked(made, ParamChara, c)
      {
        var p := new CharaParameter(es[i].value, charas);
        forall c | c in charas.rows.Values
          ensures old(c.params) + Linked(made + [p], ParamChara, c)
               == old(c.params) + Linked(made, ParamChara, c) + if ParamChara(p) == Some(c) then [p] else []
        {
          LinkedSnoc(old(c.params), made, p, ParamChara, c);
        }
        DistinctSnoc(made, p);
        made := made + [p];
      }
    }

    /** `CharaParameter.load` (docs/main.ts:240-249). */
    static method Load(resp: Response<CharaParamRow>, charas: Table<string, CharaData>)
      returns (t: Table<string, CharaParameter>, ghost rows: seq<CharaParameter>)
      modifies charas.rows.Values`params
      ensures |rows| == |Entries(resp)| && Distinct(rows)
      ensures t == Build(NormalKeys(Entries(resp)), rows)
      ensures forall i :: 0 <= i < |rows| ==> fresh(rows[i]) && rows[i].Initial(Entries(resp)[i].value, charas)
      ensures forall c :: c in charas.rows.Values ==>
                c.params == old(c.params) + Linked(rows, ParamChara, c)
    {
      var made := CreateAll(Entries(resp), charas);
      t := LoadData(resp, made);
      rows := made;
    }
  }

  function ParamRaw(x: CharaParameter): CharaParamRow {
    x.raw
  }

  function ParamChara(p: CharaParameter): Option<CharaData> {
    p.chara
  }

  // ---------------------------------------------------------------------
  // Shops

  class ShopItemInfo {
    const raw: ShopItemRow
    const shop: ShopData
    const item: Option<ItemData>

    /** docs/main.ts:256-263: resolve `ItemId`; when it resolves, append
        this entry to that item's `shops`. */
    constructor (row: ShopItemRow, shop: ShopData, items: Table<string, ItemData>)
      modifies items.rows.Values`shops
      ensures raw == row && this.shop == shop && item == GetProperty(items, row.itemId)
      ensures forall x :: x in items.rows.Values ==>
                x.shops == old(x.shops) + if item == Some(x) then [this] else []
    {
      raw := row;
      this.shop := shop;
      item := GetProperty(items, row.itemId);
      new;
      if item.Some? {
        item.value.shops := item.value.shops + [this];
      }
    }
  }

  function SaleItem(s: ShopItemInfo): Option<ItemData> {
    s.item
  }

  function SaleShop(s: ShopItemInfo): ShopData {
    s.shop
  }

  /** A shop's name: the first id of `signInfo.buyShopNameIdArray`,
      resolved; with no first id, JavaScript reads `undefined`, which no
      table holds, so the name is null. */
  function ShopName(row: ShopRow, text: Table<string, TextData>): (r: Option<TextData>)
    ensures |row.buyShopNameIds| == 0 ==> r.None?
    ensures |row.buyShopNameIds| > 0 ==> r == GetProperty(text, row.buyShopNameIds[0])
  {
    if |row.buyShopNameIds| == 0 then None else GetProperty(text, row.buyShopNameIds[0])
  }

  class ShopData {
    const raw: ShopRow
    const name: Option<TextData>
    var items: seq<ShopItemInfo>
    var maps: seq<MapShopConfigInfo>

    /** `items` holds one new entry per element of `itemInfoList`, in
        order, each owned by this shop and resolved against `itemTable`. */
    ghost predicate Holds(itemTable: Table<string, ItemData>)
      reads this`items
    {
      && |items| == |raw.itemInfoList| && Distinct(items)
      && forall j :: 0 <= j < |items| ==>
           items[j].raw == raw.itemInfoList[j] && items[j].shop == this
           && items[j].item == GetProperty(itemTable, raw.itemInfoList[j].itemId)
    }

    /** The state loading leaves a shop in: built from `row`, named, on no
        map yet. */
    ghost predicate Initial(row: ShopRow, text: Table<string, TextData>, itemTable: Table<string, ItemData>)
      reads this
    {
      raw == row && name == ShopName(row, text) && maps == [] && Holds(itemTable)
    }

    /** The row callback of `ShopData.load` (docs/main.ts:272-277): name the
        shop, then map `itemInfoList` to entries. */
    constructor (row: ShopRow, text: Table<string, TextData>, itemTable: Table<string, ItemData>)
      modifies itemTable.rows.Values`shops
      ensures Initial(row, text, itemTable)
      ensures forall j :: 0 <= j < |items| ==> fresh(items[j])
      ensures forall x :: x in itemTable.rows.Values ==>
                x.shops == old(x.shops) + Linked(items, SaleItem, x)
    {
      raw := row;
      name := ShopName(row, text);
      items, maps := [], [];
      new;
      for j := 0 to |row.itemInfoList|
        invariant |items| == j && maps == []
        invariant forall k :: 0 <= k < j ==>
                    items[k].raw == raw.itemInfoList[k] && items[k].shop == this
                    && items[k].item == GetProperty(itemTable, raw.itemInfoList[k].itemId)
        invariant Distinct(items) && forall k :: 0 <= k < j ==> fresh(items[k])
        invariant forall x :: x in itemTable.rows.Values ==>
                    x.shops == old(x.shops) + Linked(items, SaleItem, x)
      {
        var s := new ShopItemInfo(row.itemInfoList[j], this, itemTable);
        forall x | x in itemTable.rows.Values
          ensures old(x.shops) + Linked(items + [s], SaleItem, x)
               == old(x.shops) + Linked(items, SaleItem, x) + if SaleItem(s) == Some(x) then [s] else []
        {
          LinkedSnoc(old(x.shops), items, s, SaleItem, x);
        }
        DistinctSnoc(items, s);
        items := items + [s];
      }
    }

    /** The rows `made` so far: all different, each in the state its
        callback left it in, holding the children `kids` records for it. */
    static ghost predicate Made(made: seq<ShopData>, es: seq<Entry<ShopRow>>, text: Table<string, TextData>, itemTable: Table<string, ItemData>,
                                kids: seq<seq<ShopItemInfo>>)
      reads made
    {
      && |made| == |kids| <= |es| && Distinct(made)
      && forall j :: 0 <= j < |made| ==> made[j].Initial(es[j].value, text, itemTable) && made[j].items == kids[j]
    }

    static lemma MadeSnoc(made: seq<ShopData>, es: seq<Entry<ShopRow>>, text: Table<string, TextData>, itemTable: Table<string, ItemData>,
                          kids: seq<seq<ShopItemInfo>>, r: ShopData)
      requires Made(made, es, text, itemTable, kids) && |made| < |es|
      requires r !in made && r.Initial(es[|made|].value, text, itemTable)
      ensures Made(made + [r], es, text, itemTable, kids + [r.items])
    {
      DistinctConcat(made, [r]);
    }

    static method CreateAll(es: seq<Entry<ShopRow>>, text: Table<string, TextData>, itemTable: Table<string, ItemData>)
      returns (made: seq<ShopData>, ghost kids: seq<seq<ShopItemInfo>>)
      modifies itemTable.rows.Values`shops
      ensures |made| == |es| && |kids| == |es| && Distinct(made)
      ensures forall i :: 0 <= i < |made| ==>
                fresh(made[i]) && made[i].Initial(es[i].value, text, itemTable) && made[i].items == kids[i]
      ensures forall x :: x in itemTable.rows.Values ==>
                x.shops == old(x.shops) + Linked(Flatten(kids), SaleItem, x)
      ensures forall j, c :: 0 <= j < |kids| && c in kids[j] ==> fresh(c)
    {
      ghost var before := map x | x in itemTable.rows.Values :: x.shops;
      made, kids := [], [];
      for i := 0 to |es|
        invariant |made| == i && Made(made, es, text, itemTable, kids)
        invariant forall j :: 0 <= j < i ==> fresh(made[j])
        invariant forall j, c :: 0 <= j < |kids| && c in kids[j] ==> fresh(c)
        invariant forall x :: x in itemTable.rows.Values ==>
                    x in before && x.shops == before[x] + Linked(Flatten(kids), SaleItem, x)
      {
        var s;
        ghost var sd;
        s, sd := Next(es, i, text, itemTable, before, made, kids);
        kids, made := kids + [sd], made + [s];
      }
    }

    /** One turn of the loop of `CreateAll`: the shop made from the next
        entry, with its new entries `sd`, extends the rows made so far, and
        every item's `shops` list is its value `before` the loop followed
        by the links of every entry made so far. */
    static method Next(es: seq<Entry<ShopRow>>, i: nat, text: Table<string, TextData>, itemTable: Table<string, ItemData>,
                       ghost before: map<ItemData, seq<ShopItemInfo>>, ghost made: seq<ShopData>,
                       ghost kids: seq<seq<ShopItemInfo>>)
      returns (s: ShopData, ghost sd: seq<ShopItemInfo>)
      requires i == |made| < |es| && Made(made, es, text, itemTable, kids)
      requires forall x :: x in itemTable.rows.Values ==>
                 x in before && x.shops == before[x] + Linked(Flatten(kids), SaleItem, x)
      modifies itemTable.rows.Values`shops
      ensures fresh(s) && forall c :: c in sd ==> fresh(c)
      ensures Made(made + [s], es, text, itemTable, kids + [sd])
      ensures forall x :: x in itemTable.rows.Values ==> x.shops == before[x] + Linked(Flatten(kids + [sd]), SaleItem, x)
    {
      s := new ShopData(es[i].value, text, itemTable);
      MadeSnoc(made, es, text, itemTable, kids, s);
      sd := s.items;
      FlattenSnoc(kids, sd);
      forall x | x in itemTable.rows.Values
        ensures before[x] + Linked(Flatten(kids) + sd, SaleItem, x)
             == before[x] + Linked(Flatten(kids), SaleItem, x) + Linked(sd, SaleItem, x)
      {
        LinkedExtend(before[x], Flatten(kids), sd, SaleItem, x);
      }
    }

    /** The children of all created rows: no child twice, each owned by
        a created row, and every row's children among them. This only
        applies `Tables.FlattenDistinct` to this row type's owner. */
    static lemma Owners(es: seq<Entry<ShopRow>>, text: Table<string, TextData>, itemTable: Table<string, ItemData>,
                        made: seq<ShopData>, kids: seq<seq<ShopItemInfo>>)
      requires |made| == |es| && |kids| == |es|
      requires forall i :: 0 <= i < |made| ==> made[i].Initial(es[i].value, text, itemTable) && made[i].items == kids[i]
      requires Distinct(made)
      ensures Distinct(Flatten(kids)) && forall c :: c in Flatten(kids) ==> SaleShop(c) in made
      ensures forall i, c :: 0 <= i < |made| && c in made[i].items ==> c in Flatten(kids)
    {
      FlattenDistinct(made, kids, SaleShop);
    }

    /** `ShopData.load` (docs/main.ts:271-278). `entries` are the item
        entries of every created shop, shop by shop. */
    static method Load(resp: Response<ShopRow>, text: Table<string, TextData>, itemTable: Table<string, ItemData>)
      returns (t: Table<string, ShopData>, ghost rows: seq<ShopData>,
               ghost kids: seq<seq<ShopItemInfo>>, ghost entries: seq<ShopItemInfo>)
      modifies itemTable.rows.Values`shops
      ensures |rows| == |Entries(resp)| && Distinct(rows)
      ensures t == Build(NormalKeys(Entries(resp)), rows)
      ensures forall i :: 0 <= i < |rows| ==> fresh(rows[i]) && rows[i].Initial(Entries(resp)[i].value, text, itemTable)
      ensures |kids| == |rows| && (forall i :: 0 <= i < |rows| ==> rows[i].items == kids[i]) && entries == Flatten(kids)
      ensures Distinct(entries) && forall s :: s in entries ==> s.shop in rows
      ensures forall i, s :: 0 <= i < |rows| && s in rows[i].items ==> s in entries
      ensures forall x :: x in itemTable.rows.Values ==>
                x.shops == old(x.shops) + Linked(entries, SaleItem, x)
      ensures forall c :: c in entries ==> fresh(c)
    {
      var made;
      made, kids := CreateAll(Entries(resp), text, itemTable);
      Owners(Entries(resp), text, itemTable, made, kids);
      t := LoadData(resp, made);
      rows, entries := made, Flatten(kids);
      forall c | c in entries ensures fresh(c) {
        FlattenMember(kids, c);
      }
    }
  }

  function ShopRaw(x: ShopData): ShopRow {
    x.raw
  }

  class MapShopConfigInfo {
    const raw: ShopInfoRow
    const config: MapShopConfig
    const shop: Option<ShopData>

    /** docs/main.ts:285-292: resolve `shopId`; when it resolves, append
        this entry to that shop's `maps`. */
    constructor (row: ShopInfoRow, config: MapShopConfig, shops: Table<string, ShopData>)
      modifies shops.rows.Values`maps
      ensures raw == row && this.config == config && shop == GetProperty(shops, row.shopId)
      ensures forall s :: s in shops.rows.Values ==>
                s.maps == old(s.maps) + if shop == Some(s) then [this] else []
    {
      raw := row;
      this.config := config;
      shop := GetProperty(shops, row.shopId);
      new;
      if shop.Some? {
        shop.value.maps := shop.value.maps + [this];
      }
    }
  }

  function InfoShop(i: MapShopConfigInfo): Option<ShopData> {
    i.shop
  }

  function InfoConfig(i: MapShopConfigInfo): MapShopConfig {
    i.config
  }

  /** `ns` are one entry per element of `c`'s `shopInfoArray`, in order,
      each on `c` and resolved against `shops`. */
  ghost predicate InfoFrom(ns: seq<MapShopConfigInfo>, c: MapShopConfig, shops: Table<string, ShopData>) {
    && |ns| == |c.raw.shopInfoArray|
    && forall j :: 0 <= j < |ns| ==>
         ns[j].raw == c.raw.shopInfoArray[j] && ns[j].config == c && ns[j].shop == GetProperty(shops, c.raw.shopInfoArray[j].shopId)
  }

  class MapShopConfig {
    const raw: ShopConfigRow
    const mapData: MapData
    var info: seq<MapShopConfigInfo>

    /** `info` holds one new entry per element of `shopInfoArray`, in
        order, each owned by this config and resolved against `shops`. */
    ghost predicate Holds(shops: Table<string, ShopData>)
      reads this`info
    {
      Distinct(info) && InfoFrom(info, this, shops)
    }

    ghost predicate Initial(row: ShopConfigRow, mapData: MapData, shops: Table<string, ShopData>)
      reads this
    {
      raw == row && this.mapData == mapData && Holds(shops)
    }

    /** The row callback of `MapShopConfig.load` (docs/main.ts:300-305):
        record the map, then map `shopInfoArray` to entries. */
    constructor (row: ShopConfigRow, mapData: MapData, shops: Table<string, ShopData>)
      modifies shops.rows.Values`maps
      ensures Initial(row, mapData, shops)
      ensures forall j :: 0 <= j < |info| ==> fresh(info[j])
      ensures forall s :: s in shops.rows.Values ==>
                s.maps == old(s.maps) + Linked(info, InfoShop, s)
    {
      raw := row;
      this.mapData := mapData;
      info := [];
      new;
      for j := 0 to |row.shopInfoArray|
        invariant |info| == j
        invariant forall k :: 0 <= k < j ==>
                    info[k].raw == raw.shopInfoArray[k] && info[k].config == this
                    && info[k].shop == GetProperty(shops, raw.shopInfoArray[k].shopId)
        invariant Distinct(info) && forall k :: 0 <= k < j ==> fresh(info[k])
        invariant forall s :: s in shops.rows.Values ==>
                    s.maps == old(s.maps) + Linked(info, InfoShop, s)
      {
        var c := new MapShopConfigInfo(row.shopInfoArray[j], this, shops);
        forall s | s in shops.rows.Values
          ensures old(s.maps) + Linked(info + [c], InfoShop, s)
               == old(s.maps) + Linked(info, InfoShop, s) + if InfoShop(c) == Some(s) then [c] else []
        {
          LinkedSnoc(old(s.maps), info, c, InfoShop, s);
        }
        DistinctSnoc(info, c);
        info := info + [c];
      }
    }

    /** The rows `made` so far: all different, each in the state its
        callback left it in, holding the children `kids` records for it. */
    static ghost predicate Made(made: seq<MapShopConfig>, es: seq<Entry<ShopConfigRow>>, mapData: MapData, shops: Table<string, ShopData>,
                                kids: seq<seq<MapShopConfigInfo>>)
      reads made
    {
      && |made| == |kids| <= |es| && Distinct(made)
      && forall j :: 0 <= j < |made| ==> made[j].Initial(es[j].value, mapData, shops) && made[j].info == kids[j]
    }

    static lemma MadeSnoc(made: seq<MapShopConfig>, es: seq<Entry<ShopConfigRow>>, mapData: MapData, shops: Table<string, ShopData>,
                          kids: seq<seq<MapShopConfigInfo>>, r: MapShopConfig)
      requires Made(made, es, mapData, shops, kids) && |made| < |es|
      requires r !in made && r.Initial(es[|made|].value, mapData, shops)
      ensures Made(made + [r], es, mapData, shops, kids + [r.info])
    {
      DistinctConcat(made, [r]);
    }

    static method CreateAll(es: seq<Entry<ShopConfigRow>>, mapData: MapData, shops: Table<string, ShopData>)
      returns (made: seq<MapShopConfig>, ghost kids: seq<seq<MapShopConfigInfo>>)
      modifies shops.rows.Values`maps
      ensures |made| == |es| && |kids| == |es| && Distinct(made)
      ensures forall i :: 0 <= i < |made| ==>
                fresh(made[i]) && made[i].Initial(es[i].value, mapData, shops) && made[i].info == kids[i]
      ensures forall s :: s in shops.rows.Values ==>
                s.maps == old(s.maps) + Linked(Flatten(kids), InfoShop, s)
      ensures forall j, c :: 0 <= j < |kids| && c in kids[j] ==> fresh(c)
    {
      made, kids := [], [];
      for i := 0 to |es|
        invariant |made| == i && Made(made, es, mapData, shops, kids)
        invariant forall j :: 0 <= j < i ==> fresh(made[j])
        invariant forall j, c :: 0 <= j < |kids| && c in kids[j] ==> fresh(c)
        invariant forall s :: s in shops.rows.Values ==>
                    s.maps == old(s.maps) + Linked(Flatten(kids), InfoShop, s)
      {
        var c := new MapShopConfig(es[i].value, mapData, shops);
        MadeSnoc(made, es, mapData, shops, kids, c);
        ghost var cd := c.info;
        FlattenSnoc(kids, cd);
        forall s | s in shops.rows.Values
          ensures old(s.maps) + Linked(Flatten(kids) + cd, InfoShop, s)
               == old(s.maps) + Linked(Flatten(kids), InfoShop, s) + Linked(cd, InfoShop, s)
        {
          LinkedExtend(old(s.maps), Flatten(kids), cd, InfoShop, s);
        }
        kids := kids + [cd];
        made := made + [c];
      }
    }

    /** The children of all created rows: no child twice, each owned by
        a created row, and every row's children among them. This only
        applies `Tables.FlattenDistinct` to this row type's owner. */
    static lemma Owners(es: seq<Entry<ShopConfigRow>>, mapData: MapData, shops: Table<string, ShopData>,
                        made: seq<MapShopConfig>, kids: seq<seq<MapShopConfigInfo>>)
      requires |made| == |es| && |kids| == |es|
      requires forall i :: 0 <= i < |made| ==> made[i].Initial(es[i].value, mapData, shops) && made[i].info == kids[i]
      requires Distinct(made)
      ensures Distinct(Flatten(kids)) && forall c :: c in Flatten(kids) ==> InfoConfig(c) in made
      ensures forall i, c :: 0 <= i < |made| && c in made[i].info ==> c in Flatten(kids)
    {
      FlattenDistinct(made, kids, InfoConfig);
    }

    /** `MapShopConfig.load` (docs/main.ts:299-306). `entries` are the
        entries of every created config, config by config. */
    static method Load(resp: Response<ShopConfigRow>, mapData: MapData, shops: Table<string, ShopData>)
      returns (t: Table<string, MapShopConfig>, ghost rows: seq<MapShopConfig>,
               ghost kids: seq<seq<MapShopConfigInfo>>, ghost entries: seq<MapShopConfigInfo>)
      modifies shops.rows.Values`maps
      ensures |rows| == |Entries(resp)| && Distinct(rows)
      ensures t == Build(NormalKeys(Entries(resp)), rows)
      ensures forall i :: 0 <= i < |rows| ==> fresh(rows[i]) && rows[i].Initial(Entries(resp)[i].value, mapData, shops)
      ensures |kids| == |rows| && (forall i :: 0 <= i < |rows| ==> rows[i].info == kids[i]) && entries == Flatten(kids)
      ensures Distinct(entries) && forall c :: c in entries ==> c.config in rows
      ensures forall i, c :: 0 <= i < |rows| && c in rows[i].info ==> c in entries
      ensures forall s :: s in shops.rows.Values ==>
                s.maps == old(s.maps) + Linked(entries, InfoShop, s)
      ensures forall c :: c in entries ==> fresh(c)
    {
      var made;
      made, kids := CreateAll(Entries(resp), mapData, shops);
      Owners(Entries(resp), mapData, shops, made, kids);
      t := LoadData(resp, made);
      rows, entries := made, Flatten(kids);
      forall c | c in entries ensures fresh(c) {
        FlattenMember(kids, c);
      }
    }
  }

  function ShopConfigRaw(x: MapShopConfig): ShopConfigRow {
    x.raw
  }

  // ---------------------------------------------------------------------
  // Enemies

  class EnemyPlacementConfig {
    const raw: PlacementRow
    const group: EnemyGroupConfig
    const param: Option<CharaParameter>
    const drop: Option<ItemTableGroupSetting>

    /** docs/main.ts:314-325: resolve `paramId.Name` and, independently,
        `Drop.itemData.tableGroupId`; append this placement to the
        `enemies` of each that resolves. */
    constructor (row: PlacementRow, group: EnemyGroupConfig, params: Table<string, CharaParameter>,
                 drops: Table<string, ItemTableGroupSetting>)
      modifies params.rows.Values`enemies
      modifies drops.rows.Values`enemies
      ensures raw == row && this.group == group
      ensures param == GetProperty(params, row.paramIdName) && drop == GetProperty(drops, row.dropTableGroupId)
      ensures forall p :: p in params.rows.Values ==>
                p.enemies == old(p.enemies) + if param == Some(p) then [this] else []
      ensures forall d :: d in drops.rows.Values ==>
                d.enemies == old(d.enemies) + if drop == Some(d) then [this] else []
    {
      raw := row;
      this.group := group;
      param := GetProperty(params, row.paramIdName);
      drop := GetProperty(drops, row.dropTableGroupId);
      new;
      if param.Some? {
        param.value.enemies := param.value.enemies + [this];
      }
      if drop.Some? {
        drop.value.enemies := drop.value.enemies + [this];
      }
    }
  }

  function PlacementParam(e: EnemyPlacementConfig): Option<CharaParameter> {
    e.param
  }

  function PlacementDrop(e: EnemyPlacementConfig): Option<ItemTableGroupSetting> {
    e.drop
  }

  function PlacementGroup(e: EnemyPlacementConfig): EnemyGroupConfig {
    e.group
  }

  /** `ps` are one placement per element of `g`'s `Enemy` list, in order,
      each on `g` and resolved against `params` and `drops`. */
  ghost predicate PlacedFrom(ps: seq<EnemyPlacementConfig>, g: EnemyGroupConfig, params: Table<string, CharaParameter>,
                             drops: Table<string, ItemTableGroupSetting>)
  {
    && |ps| == |g.raw.enemy|
    && forall j :: 0 <= j < |ps| ==>
         ps[j].raw == g.raw.enemy[j] && ps[j].group == g
         && ps[j].param == GetProperty(params, g.raw.enemy[j].paramIdName)
         && ps[j].drop == GetProperty(drops, g.raw.enemy[j].dropTableGroupId)
  }

  class EnemyGroupConfig {
    const raw: EnemyGroupRow
    const mapData: MapData
    var enemies: seq<EnemyPlacementConfig>

    /** `enemies` holds one new placement per element of `Enemy`, in
        order, each owned by this group and resolved against `params`
        and `drops`. */
    ghost predicate Holds(params: Table<string, CharaParameter>, drops: Table<string, ItemTableGroupSetting>)
      reads this`enemies
    {
      Distinct(enemies) && PlacedFrom(enemies, this, params, drops)
    }

    ghost predicate Initial(row: EnemyGroupRow, mapData: MapData, params: Table<string, CharaParameter>,
                            drops: Table<string, ItemTableGroupSetting>)
      reads this
    {
      raw == row && this.mapData == mapData && Holds(params, drops)
    }

    /** The row callback of `EnemyGroupConfig.load` (docs/main.ts:338-344):
        record the map, then map `Enemy` to placements. */
    constructor (row: EnemyGroupRow, mapData: MapData, params: Table<string, CharaParameter>,
                 drops: Table<string, ItemTableGroupSetting>)
      modifies params.rows.Values`enemies
      modifies drops.rows.Values`enemies
      ensures Initial(row, mapData, params, drops)
      ensures forall j :: 0 <= j < |enemies| ==> fresh(enemies[j])
      ensures forall p :: p in params.rows.Values ==>
                p.enemies == old(p.enemies) + Linked(enemies, PlacementParam, p)
      ensures forall d :: d in drops.rows.Values ==>
                d.enemies == old(d.enemies) + Linked(enemies, PlacementDrop, d)
    {
      raw := row;
      this.mapData := mapData;
      enemies := [];
      new;
      enemies := Place(row.enemy, this, params, drops);
    }

    /** `data.Enemy.map(...)`: one new placement per row, in order, each
        appended to the `enemies` of the parameter and of the drop group
        it resolves to. */
    static method Place(rows: seq<PlacementRow>, group: EnemyGroupConfig, params: Table<string, CharaParameter>,
                        drops: Table<string, ItemTableGroupSetting>)
      returns (es: seq<EnemyPlacementConfig>)
      modifies params.rows.Values`enemies
      modifies drops.rows.Values`enemies
      ensures |es| == |rows| && Distinct(es)
      ensures forall k :: 0 <= k < |es| ==>
                fresh(es[k]) && es[k].raw == rows[k] && es[k].group == group
                && es[k].param == GetProperty(params, rows[k].paramIdName)
                && es[k].drop == GetProperty(drops, rows[k].dropTableGroupId)
      ensures forall p :: p in params.rows.Values ==>
                p.enemies == old(p.enemies) + Linked(es, PlacementParam, p)
      ensures forall d :: d in drops.rows.Values ==>
                d.enemies == old(d.enemies) + Linked(es, PlacementDrop, d)
    {
      es := [];
      for j := 0 to |rows|
        invariant |es| == j && Distinct(es)
        invariant forall k :: 0 <= k < j ==>
                    fresh(es[k]) && es[k].raw == rows[k] && es[k].group == group
                    && es[k].param == GetProperty(params, rows[k].paramIdName)
                    && es[k].drop == GetProperty(drops, rows[k].dropTableGroupId)
        invariant forall p :: p in params.rows.Values ==>
                    p.enemies == old(p.enemies) + Linked(es, PlacementParam, p)
        invariant forall d :: d in drops.rows.Values ==>
                    d.enemies == old(d.enemies) + Linked(es, PlacementDrop, d)
      {
        var e := new EnemyPlacementConfig(rows[j], group, params, drops);
        forall p | p in params.rows.Values
          ensures old(p.enemies) + Linked(es + [e], PlacementParam, p)
               == old(p.enemies) + Linked(es, PlacementParam, p) + if PlacementParam(e) == Some(p) then [e] else []
        {
          LinkedSnoc(old(p.enemies), es, e, PlacementParam, p);
        }
        forall d | d in drops.rows.Values
          ensures old(d.enemies) + Linked(es + [e], PlacementDrop, d)
               == old(d.enemies) + Linked(es, PlacementDrop, d) + if PlacementDrop(e) == Some(d) then [e] else []
        {
          LinkedSnoc(old(d.enemies), es, e, PlacementDrop, d);
        }
        DistinctSnoc(es, e);
        es := es + [e];
      }
    }

    /** The rows `made` so far: all different, each in the state its
        callback left it in, holding the children `kids` records for it. */
    static ghost predicate Made(made: seq<EnemyGroupConfig>, es: seq<Entry<EnemyGroupRow>>, mapData: MapData, params: Table<string, CharaParameter>, drops: Table<string, ItemTableGroupSetting>,
                                kids: seq<seq<EnemyPlacementConfig>>)
      reads made
    {
      && |made| == |kids| <= |es| && Distinct(made)
      && forall j :: 0 <= j < |made| ==> made[j].Initial(es[j].value, mapData, params, drops) && made[j].enemies == kids[j]
    }

    static lemma MadeSnoc(made: seq<EnemyGroupConfig>, es: seq<Entry<EnemyGroupRow>>, mapData: MapData, params: Table<string, CharaParameter>, drops: Table<string, ItemTableGroupSetting>,
                          kids: seq<seq<EnemyPlacementConfig>>, r: EnemyGroupConfig)
      requires Made(made, es, mapData, params, drops, kids) && |made| < |es|
      requires r !in made && r.Initial(es[|made|].value, mapData, params, drops)
      ensures Made(made + [r], es, mapData, params, drops, kids + [r.enemies])
    {
      DistinctConcat(made, [r]);
    }

    static method CreateAll(es: seq<Entry<EnemyGroupRow>>, mapData: MapData, params: Table<string, CharaParameter>,
                            drops: Table<string, ItemTableGroupSetting>)
      returns (made: seq<EnemyGroupConfig>, ghost kids: seq<seq<EnemyPlacementConfig>>)
      modifies params.rows.Values`enemies
      modifies drops.rows.Values`enemies
      ensures |made| == |es| && |kids| == |es| && Distinct(made)
      ensures forall i :: 0 <= i < |made| ==>
                fresh(made[i]) && made[i].Initial(es[i].value, mapData, params, drops) && made[i].enemies == kids[i]
      ensures forall p :: p in params.rows.Values ==>
                p.enemies == old(p.enemies) + Linked(Flatten(kids), PlacementParam, p)
      ensures forall d :: d in drops.rows.Values ==>
                d.enemies == old(d.enemies) + Linked(Flatten(kids), PlacementDrop, d)
      ensures forall j, c :: 0 <= j < |kids| && c in kids[j] ==> fresh(c)
    {
      made, kids := [], [];
      for i := 0 to |es|
        invariant |made| == i && Made(made, es, mapData, params, drops, kids)
        invariant forall j :: 0 <= j < i ==> fresh(made[j])
        invariant forall j, c :: 0 <= j < |kids| && c in kids[j] ==> fresh(c)
        invariant forall p :: p in params.rows.Values ==>
                    p.enemies == old(p.enemies) + Linked(Flatten(kids), PlacementParam, p)
        invariant forall d :: d in drops.rows.Values ==>
                    d.enemies == old(d.enemies) + Linked(Flatten(kids), PlacementDrop, d)
      {
        var g := new EnemyGroupConfig(es[i].value, mapData, params, drops);
        MadeSnoc(made, es, mapData, params, drops, kids, g);
        ghost var gd := g.enemies;
        FlattenSnoc(kids, gd);
        forall p | p in params.rows.Values
          ensures old(p.enemies) + Linked(Flatten(kids) + gd, PlacementParam, p)
               == old(p.enemies) + Linked(Flatten(kids), PlacementParam, p) + Linked(gd, PlacementParam, p)
        {
          LinkedExtend(old(p.enemies), Flatten(kids), gd, PlacementParam, p);
        }
        forall d | d in drops.rows.Values
          ensures old(d.enemies) + Linked(Flatten(kids) + gd, PlacementDrop, d)
               == old(d.enemies) + Linked(Flatten(kids), PlacementDrop, d) + Linked(gd, PlacementDrop, d)
        {
          LinkedExtend(old(d.enemies), Flatten(kids), gd, PlacementDrop, d);
        }
        kids := kids + [gd];
        made := made + [g];
      }
    }

    /** The children of all created rows: no child twice, each owned by
        a created row, and every row's children among them. This only
        applies `Tables.FlattenDistinct` to this row type's owner. */
    static lemma Owners(es: seq<Entry<EnemyGroupRow>>, mapData: MapData, params: Table<string, CharaParameter>,
                        drops: Table<string, ItemTableGroupSetting>,
                        made: seq<EnemyGroupConfig>, kids: seq<seq<EnemyPlacementConfig>>)
      requires |made| == |es| && |kids| == |es|
      requires forall i :: 0 <= i < |made| ==>
                 made[i].Initial(es[i].value, mapData, params, drops) && made[i].enemies == kids[i]
      requires Distinct(made)
      ensures Distinct(Flatten(kids)) && forall c :: c in Flatten(kids) ==> PlacementGroup(c) in made
      ensures forall i, c :: 0 <= i < |made| && c in made[i].enemies ==> c in Flatten(kids)
    {
      FlattenDistinct(made, kids, PlacementGroup);
    }

    /** `EnemyGroupConfig.load` (docs/main.ts:332-346). `placements` are
        the placements of every created group, group by group. */
    static method Load(resp: Response<EnemyGroupRow>, mapData: MapData, params: Table<string, CharaParameter>,
                       drops: Table<string, ItemTableGroupSetting>)
      returns (t: Table<string, EnemyGroupConfig>, ghost rows: seq<EnemyGroupConfig>,
               ghost kids: seq<seq<EnemyPlacementConfig>>, ghost placements: seq<EnemyPlacementConfig>)
      modifies params.rows.Values`enemies
      modifies drops.rows.Values`enemies
      ensures |rows| == |Entries(resp)| && Distinct(rows)
      ensures t == Build(NormalKeys(Entries(resp)), rows)
      ensures forall i :: 0 <= i < |rows| ==>
                fresh(rows[i]) && rows[i].Initial(Entries(resp)[i].value, mapData, params, drops)
      ensures |kids| == |rows| && (forall i :: 0 <= i < |rows| ==> rows[i].enemies == kids[i]) && placements == Flatten(kids)
      ensures Distinct(placements) && forall e :: e in placements ==> e.group in rows
      ensures forall i, e :: 0 <= i < |rows| && e in rows[i].enemies ==> e in placements
      ensures forall p :: p in params.rows.Values ==>
                p.enemies == old(p.enemies) + Linked(placements, PlacementParam, p)
      ensures forall d :: d in drops.rows.Values ==>
                d.enemies == old(d.enemies) + Linked(placements, PlacementDrop, d)
      ensures forall c :: c in placements ==> fresh(c)
    {
      var made;
      made, kids := CreateAll(Entries(resp), mapData, params, drops);
      Owners(Entries(resp), mapData, params, drops, made, kids);
      t := LoadData(resp, made);
      rows, placements := made, Flatten(kids);
      forall c | c in placements ensures fresh(c) {
        FlattenMember(kids, c);
      }
    }
  }

  function EnemyGroupRaw(x: EnemyGroupConfig): EnemyGroupRow {
    x.raw
  }

  // ---------------------------------------------------------------------
  // Maps

  /** The per-map documents: each maps a path to what fetching it gives. */
  datatype MapFiles = MapFiles(
    pickPoints: string -> Response<PickPointRow>,
    enemies: string -> Response<EnemyGroupRow>,
    shops: string -> Response<ShopConfigRow>)

  function PickPointPath(mapId: string): string {
    "GameData/Map/" + mapId + "/" + mapId + "_GDSMapPickPoint.json"
  }

  function EnemyPath(mapId: string): string {
    "GameData/Map/" + mapId + "/" + mapId + "_GDSMapEnemyPlacementConfig.json"
  }

  function ShopConfigPath(mapId: string): string {
    "GameData/Shop/Map/" + mapId + "/" + mapId + "_GDSMapShopConfig.json"
  }

  /** The three tables a map holds once its callback has run. */
  datatype MapTables = MapTables(
    points: Table<string, MapPickPoint>,
    enemies: Table<string, EnemyGroupConfig>,
    shops: Table<string, MapShopConfig>)

  /** The tables a map's children resolve against: pick-point groups,
      enemy parameters, drop groups and shops. */
  datatype Targets = Targets(
    groups: Table<string, PickPointGroup>,
    params: Table<string, CharaParameter>,
    drops: Table<string, ItemTableGroupSetting>,
    shops: Table<string, ShopData>)

  /** What one map's callback creates, row by row: its pick points, its
      enemy groups with the placements of each, and its shop configs with
      the entries of each. */
  datatype MapKids = MapKids(
    points: seq<MapPickPoint>,
    enemyGroups: seq<EnemyGroupConfig>,
    placements: seq<seq<EnemyPlacementConfig>>,
    configs: seq<MapShopConfig>,
    infos: seq<seq<MapShopConfigInfo>>)

  /** `t` is loaded from `m`'s own pick-point document: it holds the
      points `pts`, one per entry and made from it, each on `m` and
      resolved against `groups`. */
  ghost predicate PointsOf(m: MapData, t: Table<string, MapPickPoint>, files: MapFiles,
                           groups: Table<string, PickPointGroup>, pts: seq<MapPickPoint>)
  {
    var es := Entries(files.pickPoints(PickPointPath(m.raw.mapId)));
    && |pts| == |es| && t == Build(NormalKeys(es), pts)
    && forall k :: 0 <= k < |pts| ==>
         pts[k].raw == es[k].value && pts[k].mapData == m && pts[k].group == GetProperty(groups, es[k].value.groupId)
  }

  /** `t` is loaded from `m`'s own placement document: it holds the
      groups `gs`, one per entry and made from it, each on `m` with its
      placements `kids[k]`. */
  ghost predicate EnemiesOf(m: MapData, t: Table<string, EnemyGroupConfig>, files: MapFiles,
                            params: Table<string, CharaParameter>, drops: Table<string, ItemTableGroupSetting>,
                            gs: seq<EnemyGroupConfig>, kids: seq<seq<EnemyPlacementConfig>>)
  {
    var es := Entries(files.enemies(EnemyPath(m.raw.mapId)));
    && |gs| == |es| && |kids| == |es| && t == Build(NormalKeys(es), gs)
    && forall k :: 0 <= k < |gs| ==>
         gs[k].raw == es[k].value && gs[k].mapData == m && PlacedFrom(kids[k], gs[k], params, drops)
  }

  /** `t` is loaded from `m`'s own shop-config document: it holds the
      configs `cs`, one per entry and made from it, each on `m` with its
      entries `kids[k]`. */
  ghost predicate ShopsOf(m: MapData, t: Table<string, MapShopConfig>, files: MapFiles,
                          shops: Table<string, ShopData>, cs: seq<MapShopConfig>, kids: seq<seq<MapShopConfigInfo>>)
  {
    var es := Entries(files.shops(ShopConfigPath(m.raw.mapId)));
    && |cs| == |es| && |kids| == |es| && t == Build(NormalKeys(es), cs)
    && forall k :: 0 <= k < |cs| ==> cs[k].raw == es[k].value && cs[k].mapData == m && InfoFrom(kids[k], cs[k], shops)
  }

  /** Map `m` was made from `row`, is named after it and holds the tables
      `ts`, loaded from its own documents, with the children `k`. */
  ghost predicate MapOf(m: MapData, row: MapRow, names: Table<string, TextData>, files: MapFiles,
                        tg: Targets, ts: MapTables, k: MapKids)
  {
    && m.raw == row && m.name == GetProperty(names, row.mapName)
    && PointsOf(m, ts.points, files, tg.groups, k.points)
    && EnemiesOf(m, ts.enemies, files, tg.params, tg.drops, k.enemyGroups, k.placements)
    && ShopsOf(m, ts.shops, files, tg.shops, k.configs, k.infos)
  }

  /** The pick points, placements and shop entries of the maps whose
      children `ks` records, map by map. */
  function AllPoints(ks: seq<MapKids>): seq<MapPickPoint>
    decreases |ks|
  {
    if ks == [] then [] else AllPoints(ks[..|ks| - 1]) + ks[|ks| - 1].points
  }

  function AllPlacements(ks: seq<MapKids>): seq<EnemyPlacementConfig>
    decreases |ks|
  {
    if ks == [] then [] else AllPlacements(ks[..|ks| - 1]) + Flatten(ks[|ks| - 1].placements)
  }

  function AllInfos(ks: seq<MapKids>): seq<MapShopConfigInfo>
    decreases |ks|
  {
    if ks == [] then [] else AllInfos(ks[..|ks| - 1]) + Flatten(ks[|ks| - 1].infos)
  }

  /** Every map of `made` was made from its entry of `es` and holds the
      tables recorded for it in `tables`, with the children in `kids`. */
  ghost predicate MadeFrom(made: seq<MapData>, es: seq<Entry<MapRow>>, names: Table<string, TextData>,
                           files: MapFiles, tg: Targets, tables: seq<MapTables>, kids: seq<MapKids>)
    decreases |made|
  {
    && |made| == |tables| == |kids| <= |es|
    && (made == []
        || (&& MadeFrom(made[..|made| - 1], es, names, files, tg, tables[..|made| - 1], kids[..|made| - 1])
            && MapOf(made[|made| - 1], es[|made| - 1].value, names, files, tg, tables[|made| - 1], kids[|made| - 1])))
  }

  /** One more map, made from the next entry, keeps `MadeFrom`. */
  lemma MadeFromSnoc(made: seq<MapData>, es: seq<Entry<MapRow>>, names: Table<string, TextData>,
                     files: MapFiles, tg: Targets, tables: seq<MapTables>, kids: seq<MapKids>,
                     m: MapData, ts: MapTables, k: MapKids)
    requires |made| < |es| && MadeFrom(made, es, names, files, tg, tables, kids)
    requires MapOf(m, es[|made|].value, names, files, tg, ts, k)
    ensures MadeFrom(made + [m], es, names, files, tg, tables + [ts], kids + [k])
  {
    assert (made + [m])[..|made|] == made && (tables + [ts])[..|made|] == tables && (kids + [k])[..|made|] == kids;
  }

  lemma {:induction false} MadeFromAt(made: seq<MapData>, es: seq<Entry<MapRow>>, names: Table<string, TextData>,
                                      files: MapFiles, tg: Targets, tables: seq<MapTables>, kids: seq<MapKids>, i: nat)
    requires MadeFrom(made, es, names, files, tg, tables, kids) && i < |made|
    ensures i < |es| && i < |tables| && i < |kids| && MapOf(made[i], es[i].value, names, files, tg, tables[i], kids[i])
    decreases |made|
  {
    if i < |made| - 1 {
      MadeFromAt(made[..|made| - 1], es, names, files, tg, tables[..|made| - 1], kids[..|made| - 1], i);
    }
  }

  /** The children one map's callback creates, all different and each
      belonging to `m`: pick points, enemy placements, shop entries. */
  ghost predicate Owned(m: MapData, points: seq<MapPickPoint>, placements: seq<EnemyPlacementConfig>,
                        infos: seq<MapShopConfigInfo>)
  {
    && Distinct(points) && Distinct(placements) && Distinct(infos)
    && (forall k :: 0 <= k < |points| ==> points[k].mapData == m)
    && (forall k :: 0 <= k < |placements| ==> placements[k].group.mapData == m)
    && (forall k :: 0 <= k < |infos| ==> infos[k].config.mapData == m)
  }

  /** The children of the maps `made`, all different and each belonging
      to one of them. */
  ghost predicate Children(made: seq<MapData>, points: seq<MapPickPoint>, placements: seq<EnemyPlacementConfig>,
                           infos: seq<MapShopConfigInfo>)
  {
    && Distinct(points) && Distinct(placements) && Distinct(infos)
    && (forall p :: p in points ==> p.mapData in made)
    && (forall e :: e in placements ==> e.group.mapData in made)
    && (forall c :: c in infos ==> c.config.mapData in made)
  }

  /** A new map's own children extend the children of the earlier maps
      without repeating any of them. */
  lemma ChildrenSnoc(made: seq<MapData>, points: seq<MapPickPoint>, placements: seq<EnemyPlacementConfig>,
                     infos: seq<MapShopConfigInfo>, m: MapData, pts: seq<MapPickPoint>,
                     pls: seq<EnemyPlacementConfig>, ins: seq<MapShopConfigInfo>)
    requires Children(made, points, placements, infos) && m !in made && Owned(m, pts, pls, ins)
    ensures Children(made + [m], points + pts, placements + pls, infos + ins)
  {
    DistinctConcat(points, pts);
    DistinctConcat(placements, pls);
    DistinctConcat(infos, ins);
  }

  /** The maps `made` hold the tables `tables` records, so each is in the
      state its callback left it in. */
  lemma MadeInitial(made: seq<MapData>, es: seq<Entry<MapRow>>, names: Table<string, TextData>,
                    files: MapFiles, tg: Targets, tables: seq<MapTables>, kids: seq<MapKids>)
    requires |made| == |tables| <= |es| && MadeFrom(made, es, names, files, tg, tables, kids)
    requires forall j :: 0 <= j < |made| ==> MapTables(made[j].pickPoints, made[j].enemies, made[j].shops) == tables[j]
    ensures |kids| == |made| && forall i :: 0 <= i < |made| ==> made[i].Initial(es[i].value, names, files, tg, kids[i])
  {
    forall i | 0 <= i < |made|
      ensures made[i].Initial(es[i].value, names, files, tg, kids[i])
    {
      MadeFromAt(made, es, names, files, tg, tables, kids, i);
    }
  }

  /** Every target's back-reference list is its value in the earlier
      state followed by the children that resolve to it, in order. */
  twostate predicate ChildrenLinked(groups: Table<string, PickPointGroup>, params: Table<string, CharaParameter>,
                                    drops: Table<string, ItemTableGroupSetting>, shopTable: Table<string, ShopData>,
                                    new points: seq<MapPickPoint>, new placements: seq<EnemyPlacementConfig>,
                                    new infos: seq<MapShopConfigInfo>)
    reads set g | g in groups.rows.Values :: g, set p | p in params.rows.Values :: p
    reads set d | d in drops.rows.Values :: d, set s | s in shopTable.rows.Values :: s
  {
    && (forall g :: g in groups.rows.Values ==> g.maps == old(g.maps) + Linked(points, PointGroup, g))
    && (forall p :: p in params.rows.Values ==> p.enemies == old(p.enemies) + Linked(placements, PlacementParam, p))
    && (forall d :: d in drops.rows.Values ==> d.enemies == old(d.enemies) + Linked(placements, PlacementDrop, d))
    && (forall s :: s in shopTable.rows.Values ==> s.maps == old(s.maps) + Linked(infos, InfoShop, s))
  }

  /** The back-reference lists of the targets of a map's children, as a
      value: `maps` of the pick-point groups, `enemies` of the parameters
      and of the drop groups, `maps` of the shops. */
  datatype Lists = Lists(
    maps: map<PickPointGroup, seq<MapPickPoint>>,
    enemies: map<CharaParameter, seq<EnemyPlacementConfig>>,
    drops: map<ItemTableGroupSetting, seq<EnemyPlacementConfig>>,
    shops: map<ShopData, seq<MapShopConfigInfo>>)

  function ListsOf(groups: Table<string, PickPointGroup>, params: Table<string, CharaParameter>,
                   drops: Table<string, ItemTableGroupSetting>, shopTable: Table<string, ShopData>): Lists
    reads set g | g in groups.rows.Values :: g, set p | p in params.rows.Values :: p
    reads set d | d in drops.rows.Values :: d, set s | s in shopTable.rows.Values :: s
  {
    Lists(map g | g in groups.rows.Values :: g.maps, map p | p in params.rows.Values :: p.enemies,
          map d | d in drops.rows.Values :: d.enemies, map s | s in shopTable.rows.Values :: s.maps)
  }

  /** Every target's list is its value in `before` followed by the
      children that resolve to it, in order. */
  ghost predicate ListsFrom(before: Lists, groups: Table<string, PickPointGroup>,
                            params: Table<string, CharaParameter>, drops: Table<string, ItemTableGroupSetting>,
                            shopTable: Table<string, ShopData>, points: seq<MapPickPoint>,
                            placements: seq<EnemyPlacementConfig>, infos: seq<MapShopConfigInfo>)
    reads set g | g in groups.rows.Values :: g, set p | p in params.rows.Values :: p
    reads set d | d in drops.rows.Values :: d, set s | s in shopTable.rows.Values :: s
  {
    && (forall g :: g in groups.rows.Values ==> g in before.maps && g.maps == before.maps[g] + Linked(points, PointGroup, g))
    && (forall p :: p in params.rows.Values ==>
          p in before.enemies && p.enemies == before.enemies[p] + Linked(placements, PlacementParam, p))
    && (forall d :: d in drops.rows.Values ==>
          d in before.drops && d.enemies == before.drops[d] + Linked(placements, PlacementDrop, d))
    && (forall s :: s in shopTable.rows.Values ==> s in before.shops && s.maps == before.shops[s] + Linked(infos, InfoShop, s))
  }

  /** What the loop over the map entries has made so far: the maps
      `made`, all different, each built from its entry and still holding
      the tables `tables` it loaded, with the children `kids`; `points`,
      `placements` and `infos` are those children, map by map. */
  ghost predicate Progress(made: seq<MapData>, es: seq<Entry<MapRow>>, names: Table<string, TextData>,
                           files: MapFiles, tg: Targets, tables: seq<MapTables>, kids: seq<MapKids>,
                           points: seq<MapPickPoint>, placements: seq<EnemyPlacementConfig>,
                           infos: seq<MapShopConfigInfo>)
    reads made
  {
    && |made| == |tables| <= |es| && Distinct(made) && Children(made, points, placements, infos)
    && MadeFrom(made, es, names, files, tg, tables, kids)
    && points == AllPoints(kids) && placements == AllPlacements(kids) && infos == AllInfos(kids)
    && forall j :: 0 <= j < |made| ==> MapTables(made[j].pickPoints, made[j].enemies, made[j].shops) == tables[j]
  }

  /** A new map made from the next entry, with its own children, extends
      the progress of the loop by one turn. */
  lemma ProgressSnoc(made: seq<MapData>, es: seq<Entry<MapRow>>, names: Table<string, TextData>,
                     files: MapFiles, tg: Targets, tables: seq<MapTables>, kids: seq<MapKids>,
                     points: seq<MapPickPoint>, placements: seq<EnemyPlacementConfig>,
                     infos: seq<MapShopConfigInfo>, m: MapData, k: MapKids)
    requires |made| < |es| && Progress(made, es, names, files, tg, tables, kids, points, placements, infos)
    requires m !in made && m.Initial(es[|made|].value, names, files, tg, k)
    requires Owned(m, k.points, Flatten(k.placements), Flatten(k.infos))
    ensures Progress(made + [m], es, names, files, tg, tables + [MapTables(m.pickPoints, m.enemies, m.shops)], kids + [k],
                     points + k.points, placements + Flatten(k.placements), infos + Flatten(k.infos))
  {
    ghost var ts := MapTables(m.pickPoints, m.enemies, m.shops);
    DistinctConcat(made, [m]);
    MadeFromSnoc(made, es, names, files, tg, tables, kids, m, ts, k);
    ChildrenSnoc(made, points, placements, infos, m, k.points, Flatten(k.placements), Flatten(k.infos));
    AllSnoc(kids, k);
    TablesSnoc(made, tables, m, ts);
  }

  /** The children of one more map follow those of the earlier maps. */
  lemma AllSnoc(kids: seq<MapKids>, k: MapKids)
    ensures AllPoints(kids + [k]) == AllPoints(kids) + k.points
    ensures AllPlacements(kids + [k]) == AllPlacements(kids) + Flatten(k.placements)
    ensures AllInfos(kids + [k]) == AllInfos(kids) + Flatten(k.infos)
  {
    assert (kids + [k])[..|kids|] == kids;
  }

  /** One more map, holding the tables `ts`, keeps every map's tables as
      recorded. */
  lemma TablesSnoc(made: seq<MapData>, tables: seq<MapTables>, m: MapData, ts: MapTables)
    requires |made| == |tables| && ts == MapTables(m.pickPoints, m.enemies, m.shops)
    requires forall j :: 0 <= j < |made| ==> MapTables(made[j].pickPoints, made[j].enemies, made[j].shops) == tables[j]
    ensures forall j :: 0 <= j < |made| + 1 ==>
              MapTables((made + [m])[j].pickPoints, (made + [m])[j].enemies, (made + [m])[j].shops) == (tables + [ts])[j]
  {
  }

  /** Before the first turn nothing is made. */
  lemma ProgressStart(made: seq<MapData>, es: seq<Entry<MapRow>>, names: Table<string, TextData>,
                      files: MapFiles, tg: Targets)
    ensures Progress(made[..0], es, names, files, tg, [], [], [], [], [])
  {
    assert made[..0] == [];
  }

  /** Before the first turn every target's list is its value before. */
  lemma ListsStart(groups: Table<string, PickPointGroup>, params: Table<string, CharaParameter>,
                   drops: Table<string, ItemTableGroupSetting>, shopTable: Table<string, ShopData>)
    ensures ListsFrom(ListsOf(groups, params, drops, shopTable), groups, params, drops, shopTable, [], [], [])
  {
  }

  class MapData {
    const raw: MapRow
    const name: Option<TextData>
    var pickPoints: Table<string, MapPickPoint>
    var enemies: Table<string, EnemyGroupConfig>
    var shops: Table<string, MapShopConfig>

    ghost predicate PointsLoaded(files: MapFiles, groups: Table<string, PickPointGroup>, pts: seq<MapPickPoint>)
      reads this`pickPoints
    {
      PointsOf(this, pickPoints, files, groups, pts)
    }

    ghost predicate EnemiesLoaded(files: MapFiles, params: Table<string, CharaParameter>,
                                  drops: Table<string, ItemTableGroupSetting>,
                                  gs: seq<EnemyGroupConfig>, kids: seq<seq<EnemyPlacementConfig>>)
      reads this`enemies
    {
      EnemiesOf(this, enemies, files, params, drops, gs, kids)
    }

    ghost predicate ShopsLoaded(files: MapFiles, shops: Table<string, ShopData>,
                                cs: seq<MapShopConfig>, kids: seq<seq<MapShopConfigInfo>>)
      reads this`shops
    {
      ShopsOf(this, this.shops, files, shops, cs, kids)
    }

    /** The state the row callback leaves a map in: named, with its three
        tables loaded from the map's own documents, holding the children
        `k`. */
    ghost predicate Initial(row: MapRow, names: Table<string, TextData>, files: MapFiles, tg: Targets, k: MapKids)
      reads this`pickPoints, this`enemies, this`shops
    {
      MapOf(this, row, names, files, tg, MapTables(pickPoints, enemies, shops), k)
    }

    /** What the map's three tables show of its own documents: every key
        of each document, holding a row made from the key's last entry
        and on this map, the pick points resolved against `groups`. */
    ghost predicate Held(files: MapFiles, groups: Table<string, PickPointGroup>)
      reads this`pickPoints, this`enemies, this`shops
    {
      && LoadedFrom(pickPoints, files.pickPoints(PickPointPath(raw.mapId)), PointRaw)
      && (forall p :: p in pickPoints.rows.Values ==> p.mapData == this && p.group == GetProperty(groups, p.raw.groupId))
      && LoadedFrom(enemies, files.enemies(EnemyPath(raw.mapId)), EnemyGroupRaw)
      && (forall g :: g in enemies.rows.Values ==> g.mapData == this)
      && LoadedFrom(shops, files.shops(ShopConfigPath(raw.mapId)), ShopConfigRaw)
      && (forall c :: c in shops.rows.Values ==> c.mapData == this)
    }

    /** A map in the state its callback left it in shows its documents. */
    lemma InitialHeld(row: MapRow, names: Table<string, TextData>, files: MapFiles, tg: Targets, k: MapKids)
      requires Initial(row, names, files, tg, k)
      ensures Held(files, tg.groups)
    {
      BuildLoadedFrom(files.pickPoints(PickPointPath(raw.mapId)), k.points, PointRaw);
      BuildLoadedFrom(files.enemies(EnemyPath(raw.mapId)), k.enemyGroups, EnemyGroupRaw);
      BuildLoadedFrom(files.shops(ShopConfigPath(raw.mapId)), k.configs, ShopConfigRaw);
      forall p | p in pickPoints.rows.Values
        ensures p.mapData == this && p.group == GetProperty(tg.groups, p.raw.groupId)
      {
        var i :| 0 <= i < |k.points| && k.points[i] == p;
      }
      forall g | g in enemies.rows.Values ensures g.mapData == this {
        var i :| 0 <= i < |k.enemyGroups| && k.enemyGroups[i] == g;
      }
      forall c | c in shops.rows.Values ensures c.mapData == this {
        var i :| 0 <= i < |k.configs| && k.configs[i] == c;
      }
    }

    constructor (row: MapRow, names: Table<string, TextData>)
      ensures raw == row && name == GetProperty(names, row.mapName)
    {
      raw := row;
      name := GetProperty(names, row.mapName);
      pickPoints, enemies, shops := Empty(), Empty(), Empty();
    }

    /** `map.pick_points = await MapPickPoint.load(...)` (docs/main.ts:364). */
    method LoadPoints(files: MapFiles, groups: Table<string, PickPointGroup>)
      returns (ghost pts: seq<MapPickPoint>)
      modifies this`pickPoints
      modifies groups.rows.Values`maps
      ensures PointsLoaded(files, groups, pts)
      ensures Distinct(pts) && forall k :: 0 <= k < |pts| ==> fresh(pts[k]) && pts[k].mapData == this
      ensures forall g :: g in groups.rows.Values ==> g.maps == old(g.maps) + Linked(pts, PointGroup, g)
    {
      var resp := files.pickPoints(PickPointPath(raw.mapId));
      pickPoints, pts := MapPickPoint.Load(resp, this, groups);
    }

    /** `map.enemies = await EnemyGroupConfig.load(...)` (docs/main.ts:365). */
    method LoadEnemies(files: MapFiles, params: Table<string, CharaParameter>,
                       drops: Table<string, ItemTableGroupSetting>)
      returns (ghost gs: seq<EnemyGroupConfig>, ghost kids: seq<seq<EnemyPlacementConfig>>,
               ghost placements: seq<EnemyPlacementConfig>)
      modifies this`enemies
      modifies params.rows.Values`enemies
      modifies drops.rows.Values`enemies
      ensures EnemiesLoaded(files, params, drops, gs, kids) && placements == Flatten(kids)
      ensures forall i :: 0 <= i < |gs| ==> fresh(gs[i]) && gs[i].enemies == kids[i]
      ensures Distinct(placements) && forall k :: 0 <= k < |placements| ==> placements[k].group.mapData == this
      ensures forall p :: p in params.rows.Values ==>
                p.enemies == old(p.enemies) + Linked(placements, PlacementParam, p)
      ensures forall d :: d in drops.rows.Values ==>
                d.enemies == old(d.enemies) + Linked(placements, PlacementDrop, d)
    {
      var resp := files.enemies(EnemyPath(raw.mapId));
      enemies, gs, kids, placements := EnemyGroupConfig.Load(resp, this, params, drops);
    }

    /** `map.shops = await MapShopConfig.load(...)` (docs/main.ts:366). */
    method LoadShops(files: MapFiles, shopTable: Table<string, ShopData>)
      returns (ghost cs: seq<MapShopConfig>, ghost kids: seq<seq<MapShopConfigInfo>>, ghost infos: seq<MapShopConfigInfo>)
      modifies this`shops
      modifies shopTable.rows.Values`maps
      ensures ShopsLoaded(files, shopTable, cs, kids) && infos == Flatten(kids)
      ensures forall i :: 0 <= i < |cs| ==> fresh(cs[i]) && cs[i].info == kids[i]
      ensures Distinct(infos) && forall k :: 0 <= k < |infos| ==> infos[k].config.mapData == this
      ensures forall s :: s in shopTable.rows.Values ==> s.maps == old(s.maps) + Linked(infos, InfoShop, s)
    {
      var resp := files.shops(ShopConfigPath(raw.mapId));
      shops, cs, kids, infos := MapShopConfig.Load(resp, this, shopTable);
    }

    /** The enemy groups, then the shop configs, of a map whose pick points
        `pts` are loaded (docs/main.ts:365-366), leaving the groups' `maps`
        lists as they are; `k` records all three. */
    method LoadRest(files: MapFiles, groups: Table<string, PickPointGroup>, params: Table<string, CharaParameter>,
                    drops: Table<string, ItemTableGroupSetting>, shopTable: Table<string, ShopData>,
                    ghost pts: seq<MapPickPoint>)
      returns (ghost k: MapKids)
      modifies this`enemies, this`shops
      modifies params.rows.Values`enemies
      modifies drops.rows.Values`enemies
      modifies shopTable.rows.Values`maps
      ensures k.points == pts
      ensures EnemiesLoaded(files, params, drops, k.enemyGroups, k.placements)
      ensures ShopsLoaded(files, shopTable, k.configs, k.infos)
      ensures Distinct(Flatten(k.placements)) && forall j :: 0 <= j < |Flatten(k.placements)| ==> Flatten(k.placements)[j].group.mapData == this
      ensures Distinct(Flatten(k.infos)) && forall j :: 0 <= j < |Flatten(k.infos)| ==> Flatten(k.infos)[j].config.mapData == this
      ensures forall p :: p in params.rows.Values ==>
                p.enemies == old(p.enemies) + Linked(Flatten(k.placements), PlacementParam, p)
      ensures forall d :: d in drops.rows.Values ==>
                d.enemies == old(d.enemies) + Linked(Flatten(k.placements), PlacementDrop, d)
      ensures forall s :: s in shopTable.rows.Values ==> s.maps == old(s.maps) + Linked(Flatten(k.infos), InfoShop, s)
      ensures forall g :: g in groups.rows.Values ==> g.maps == old(g.maps)
    {
      ghost var gs, pks, placements := LoadEnemies(files, params, drops);
      ghost var cs, iks, infos := LoadShops(files, shopTable);
      k := MapKids(pts, gs, pks, cs, iks);
    }

    /** The loads of the row callback of `MapData.load` (docs/main.ts:364-366),
        on a map already made and named: its pick points, its enemy groups
        and its shop configs, from the paths built from `mapId`, in that
        order, each owned by this map; `k` records what they create. */
    method Fill(files: MapFiles, groups: Table<string, PickPointGroup>, params: Table<string, CharaParameter>,
                drops: Table<string, ItemTableGroupSetting>, shopTable: Table<string, ShopData>)
      returns (ghost k: MapKids)
      modifies this`pickPoints, this`enemies, this`shops
      modifies groups.rows.Values`maps
      modifies params.rows.Values`enemies
      modifies drops.rows.Values`enemies
      modifies shopTable.rows.Values`maps
      ensures PointsLoaded(files, groups, k.points)
      ensures EnemiesLoaded(files, params, drops, k.enemyGroups, k.placements)
      ensures ShopsLoaded(files, shopTable, k.configs, k.infos)
      ensures Owned(this, k.points, Flatten(k.placements), Flatten(k.infos))
      ensures ChildrenLinked(groups, params, drops, shopTable, k.points, Flatten(k.placements), Flatten(k.infos))
    {
      ghost var pts := LoadPoints(files, groups);
      k := LoadRest(files, groups, params, drops, shopTable, pts);
    }

    /** One turn of the loop that loads the maps' children: fill the map
        made for entry `i`, owning what it creates; the maps `made` filled
        earlier are left as they were. */
    method Step(es: seq<Entry<MapRow>>, i: nat, names: Table<string, TextData>, files: MapFiles,
                groups: Table<string, PickPointGroup>, params: Table<string, CharaParameter>,
                drops: Table<string, ItemTableGroupSetting>, shopTable: Table<string, ShopData>,
                ghost made: seq<MapData>)
      returns (ghost ts: MapTables, ghost k: MapKids)
      requires i < |es| && this !in made
      requires raw == es[i].value && name == GetProperty(names, es[i].value.mapName)
      modifies this`pickPoints, this`enemies, this`shops
      modifies groups.rows.Values`maps
      modifies params.rows.Values`enemies
      modifies drops.rows.Values`enemies
      modifies shopTable.rows.Values`maps
      ensures unchanged(made)
      ensures Initial(es[i].value, names, files, Targets(groups, params, drops, shopTable), k)
      ensures Owned(this, k.points, Flatten(k.placements), Flatten(k.infos))
      ensures ts == MapTables(pickPoints, enemies, shops)
      ensures ChildrenLinked(groups, params, drops, shopTable, k.points, Flatten(k.placements), Flatten(k.infos))
    {
      k := Fill(files, groups, params, drops, shopTable);
      ts := MapTables(pickPoints, enemies, shops);
    }

    /** One turn of the loop together with what it does to the targets'
        lists: each is its value `before` the loop followed by the links of
        every child loaded so far. */
    method Turn(es: seq<Entry<MapRow>>, i: nat, names: Table<string, TextData>, files: MapFiles,
                       groups: Table<string, PickPointGroup>, params: Table<string, CharaParameter>,
                       drops: Table<string, ItemTableGroupSetting>, shopTable: Table<string, ShopData>,
                       ghost before: Lists, ghost made: seq<MapData>, ghost tables: seq<MapTables>, ghost kids: seq<MapKids>,
                       ghost points: seq<MapPickPoint>, ghost placements: seq<EnemyPlacementConfig>,
                       ghost infos: seq<MapShopConfigInfo>)
      returns (ghost ts: MapTables, ghost k: MapKids)
      requires i == |made| < |es| && this !in made
      requires raw == es[i].value && name == GetProperty(names, es[i].value.mapName)
      requires Progress(made, es, names, files, Targets(groups, params, drops, shopTable), tables, kids, points, placements, infos)
      requires ListsFrom(before, groups, params, drops, shopTable, points, placements, infos)
      modifies this`pickPoints, this`enemies, this`shops
      modifies groups.rows.Values`maps
      modifies params.rows.Values`enemies
      modifies drops.rows.Values`enemies
      modifies shopTable.rows.Values`maps
      ensures Progress(made + [this], es, names, files, Targets(groups, params, drops, shopTable), tables + [ts], kids + [k],
                       points + k.points, placements + Flatten(k.placements), infos + Flatten(k.infos))
      ensures ListsFrom(before, groups, params, drops, shopTable,
                        points + k.points, placements + Flatten(k.placements), infos + Flatten(k.infos))
    {
      ts, k := Step(es, i, names, files, groups, params, drops, shopTable, made);
      ProgressSnoc(made, es, names, files, Targets(groups, params, drops, shopTable), tables, kids,
                   points, placements, infos, this, k);
      ghost var pts, pls, ins := k.points, Flatten(k.placements), Flatten(k.infos);
      forall g | g in groups.rows.Values
        ensures before.maps[g] + Linked(points + pts, PointGroup, g)
             == before.maps[g] + Linked(points, PointGroup, g) + Linked(pts, PointGroup, g)
      {
        LinkedExtend(before.maps[g], points, pts, PointGroup, g);
      }
      forall p | p in params.rows.Values
        ensures before.enemies[p] + Linked(placements + pls, PlacementParam, p)
             == before.enemies[p] + Linked(placements, PlacementParam, p) + Linked(pls, PlacementParam, p)
      {
        LinkedExtend(before.enemies[p], placements, pls, PlacementParam, p);
      }
      forall d | d in drops.rows.Values
        ensures before.drops[d] + Linked(placements + pls, PlacementDrop, d)
             == before.drops[d] + Linked(placements, PlacementDrop, d) + Linked(pls, PlacementDrop, d)
      {
        LinkedExtend(before.drops[d], placements, pls, PlacementDrop, d);
      }
      forall s | s in shopTable.rows.Values
        ensures before.shops[s] + Linked(infos + ins, InfoShop, s)
             == before.shops[s] + Linked(infos, InfoShop, s) + Linked(ins, InfoShop, s)
      {
        LinkedExtend(before.shops[s], infos, ins, InfoShop, s);
      }
    }

    /** The first half of `loadData`'s loop over the map entries: the
        callback's `new MapData(data)` and name lookup (docs/main.ts:362-363)
        for every entry, in entry order; the loads that follow read and
        change nothing these depend on, so they can come after. */
    static method MakeAll(es: seq<Entry<MapRow>>, names: Table<string, TextData>) returns (made: seq<MapData>)
      ensures |made| == |es| && Distinct(made)
      ensures forall i :: 0 <= i < |made| ==>
                fresh(made[i]) && made[i].raw == es[i].value && made[i].name == GetProperty(names, es[i].value.mapName)
    {
      made := [];
      for i := 0 to |es|
        invariant |made| == i && Distinct(made)
        invariant forall j :: 0 <= j < i ==>
                    fresh(made[j]) && made[j].raw == es[j].value && made[j].name == GetProperty(names, es[j].value.mapName)
      {
        var m := new MapData(es[i].value, names);
        DistinctConcat(made, [m]);
        made := made + [m];
      }
    }

    /** Turn `i` of `CreateAll`'s loop, on the maps `made` by `MakeAll`:
        the progress over the first `i` maps and the targets' lists
        extend to the first `i + 1`. */
    static method Advance(made: seq<MapData>, i: nat, es: seq<Entry<MapRow>>, names: Table<string, TextData>,
                          files: MapFiles, groups: Table<string, PickPointGroup>, params: Table<string, CharaParameter>,
                          drops: Table<string, ItemTableGroupSetting>, shopTable: Table<string, ShopData>,
                          ghost before: Lists, ghost tables: seq<MapTables>, ghost kids: seq<MapKids>,
                          ghost points: seq<MapPickPoint>, ghost placements: seq<EnemyPlacementConfig>,
                          ghost infos: seq<MapShopConfigInfo>)
      returns (ghost ts: MapTables, ghost k: MapKids)
      requires i < |made| == |es| && Distinct(made)
      requires made[i].raw == es[i].value && made[i].name == GetProperty(names, es[i].value.mapName)
      requires Progress(made[..i], es, names, files, Targets(groups, params, drops, shopTable), tables, kids,
                        points, placements, infos)
      requires ListsFrom(before, groups, params, drops, shopTable, points, placements, infos)
      modifies made[i]
      modifies groups.rows.Values`maps
      modifies params.rows.Values`enemies
      modifies drops.rows.Values`enemies
      modifies shopTable.rows.Values`maps
      ensures Progress(made[..i + 1], es, names, files, Targets(groups, params, drops, shopTable), tables + [ts],
                       kids + [k], points + k.points, placements + Flatten(k.placements), infos + Flatten(k.infos))
      ensures ListsFrom(before, groups, params, drops, shopTable,
                        points + k.points, placements + Flatten(k.placements), infos + Flatten(k.infos))
    {
      DistinctTake(made, i);
      ts, k := made[i].Turn(es, i, names, files, groups, params, drops, shopTable,
                            before, made[..i], tables, kids, points, placements, infos);
      assert made[..i] + [made[i]] == made[..i + 1];
    }

    /** `loadData`'s loop over the map entries: one new map per entry, in
        entry order, named, then filled map by map; `kids[i]` are the
        children of map `i`, and `points`, `placements` and `infos` all of
        them, map by map. */
    static method CreateAll(es: seq<Entry<MapRow>>, names: Table<string, TextData>, files: MapFiles,
                            groups: Table<string, PickPointGroup>, params: Table<string, CharaParameter>,
                            drops: Table<string, ItemTableGroupSetting>, shopTable: Table<string, ShopData>)
      returns (made: seq<MapData>, ghost kids: seq<MapKids>, ghost points: seq<MapPickPoint>,
               ghost placements: seq<EnemyPlacementConfig>, ghost infos: seq<MapShopConfigInfo>)
      modifies groups.rows.Values`maps
      modifies params.rows.Values`enemies
      modifies drops.rows.Values`enemies
      modifies shopTable.rows.Values`maps
      ensures |made| == |es| && |kids| == |es| && Distinct(made) && Children(made, points, placements, infos)
      ensures points == AllPoints(kids) && placements == AllPlacements(kids) && infos == AllInfos(kids)
      ensures forall i :: 0 <= i < |made| ==>
                fresh(made[i]) && made[i].Initial(es[i].value, names, files, Targets(groups, params, drops, shopTable), kids[i])
      ensures ListsFrom(old(ListsOf(groups, params, drops, shopTable)), groups, params, drops, shopTable,
                        points, placements, infos)
    {
      ghost var before := ListsOf(groups, params, drops, shopTable);
      made := MakeAll(es, names);
      ghost var tables: seq<MapTables> := [];
      kids, points, placements, infos := [], [], [], [];
      ProgressStart(made, es, names, files, Targets(groups, params, drops, shopTable));
      ListsStart(groups, params, drops, shopTable);
      for i := 0 to |es|
        invariant Progress(made[..i], es, names, files, Targets(groups, params, drops, shopTable), tables, kids,
                           points, placements, infos)
        invariant ListsFrom(before, groups, params, drops, shopTable, points, placements, infos)
      {
        ghost var ts, k := Advance(made, i, es, names, files, groups, params, drops, shopTable,
                                   before, tables, kids, points, placements, infos);
        tables, kids := tables + [ts], kids + [k];
        points, placements, infos := points + k.points, placements + Flatten(k.placements), infos + Flatten(k.infos);
      }
      assert made[..|es|] == made;
      MadeInitial(made, es, names, files, Targets(groups, params, drops, shopTable), tables, kids);
    }

    /** `MapData.load` (docs/main.ts:353-370): one new map per entry, in
        the table built from the entries' keys; `kids[i]` are the children
        map `i` created, and `points`, `placements` and `infos` all of
        them, map by map, none created twice and each belonging to one
        of the new maps. */
    static method Load(resp: Response<MapRow>, names: Table<string, TextData>, files: MapFiles,
                       groups: Table<string, PickPointGroup>, params: Table<string, CharaParameter>,
                       drops: Table<string, ItemTableGroupSetting>, shopTable: Table<string, ShopData>)
      returns (t: Table<string, MapData>, ghost rows: seq<MapData>, ghost kids: seq<MapKids>,
               ghost points: seq<MapPickPoint>, ghost placements: seq<EnemyPlacementConfig>,
               ghost infos: seq<MapShopConfigInfo>)
      modifies groups.rows.Values`maps
      modifies params.rows.Values`enemies
      modifies drops.rows.Values`enemies
      modifies shopTable.rows.Values`maps
      ensures |rows| == |Entries(resp)| && |kids| == |rows| && Distinct(rows) && Children(rows, points, placements, infos)
      ensures t == Build(NormalKeys(Entries(resp)), rows)
      ensures points == AllPoints(kids) && placements == AllPlacements(kids) && infos == AllInfos(kids)
      ensures forall i :: 0 <= i < |rows| ==>
                fresh(rows[i]) && rows[i].Initial(Entries(resp)[i].value, names, files, Targets(groups, params, drops, shopTable), kids[i])
      ensures ListsFrom(old(ListsOf(groups, params, drops, shopTable)), groups, params, drops, shopTable,
                        points, placements, infos)
    {
      var made;
      made, kids, points, placements, infos := CreateAll(Entries(resp), names, files, groups, params, drops, shopTable);
      t := LoadData(resp, made);
      rows := made;
    }
  }

  function MapRaw(x: MapData): MapRow {
    x.raw
  }

  // ---------------------------------------------------------------------
  // Recipes

  class RecipeItemInfo {
    const raw: RecipeItemRow
    const recipe: RecipeData
    const item: Option<ItemData>

    /** docs/main.ts:376-383: resolve `ItemId`; when it resolves, append
        this material to that item's `material_for`. */
    constructor (row: RecipeItemRow, recipe: RecipeData, items: Table<string, ItemData>)
      modifies items.rows.Values`materialFor
      ensures raw == row && this.recipe == recipe && item == GetProperty(items, row.itemId)
      ensures forall x :: x in items.rows.Values ==>
                x.materialFor == old(x.materialFor) + if item == Some(x) then [this] else []
    {
      raw := row;
      this.recipe := recipe;
      item := GetProperty(items, row.itemId);
      new;
      if item.Some? {
        item.value.materialFor := item.value.materialFor + [this];
      }
    }
  }

  function MaterialItem(r: RecipeItemInfo): Option<ItemData> {
    r.item
  }

  function MaterialRecipe(r: RecipeItemInfo): RecipeData {
    r.recipe
  }

  function RecipeItem(r: RecipeData): Option<ItemData> {
    r.item
  }

  class RecipeData {
    const raw: RecipeRow
    const item: Option<ItemData>
    var itemList: seq<RecipeItemInfo>

    /** `itemList` holds one new material per element of the row's
        `itemList`, in order, each owned by this recipe and resolved
        against `items`. */
    ghost predicate Holds(items: Table<string, ItemData>)
      reads this`itemList
    {
      && |itemList| == |raw.itemList| && Distinct(itemList)
      && forall j :: 0 <= j < |itemList| ==>
           itemList[j].raw == raw.itemList[j] && itemList[j].recipe == this
           && itemList[j].item == GetProperty(items, raw.itemList[j].itemId)
    }

    ghost predicate Initial(row: RecipeRow, items: Table<string, ItemData>)
      reads this`itemList
    {
      raw == row && item == GetProperty(items, row.itemId) && Holds(items)
    }

    /** The row callback of `RecipeData.load` (docs/main.ts:391-398):
        resolve `ItemId` and, when it resolves, append the recipe to that
        item's `created_by`; then map `itemList` to materials. */
    constructor (row: RecipeRow, items: Table<string, ItemData>)
      modifies items.rows.Values`createdBy
      modifies items.rows.Values`materialFor
      ensures Initial(row, items)
      ensures forall j :: 0 <= j < |itemList| ==> fresh(itemList[j])
      ensures forall x :: x in items.rows.Values ==>
                x.createdBy == old(x.createdBy) + if item == Some(x) then [this] else []
      ensures forall x :: x in items.rows.Values ==>
                x.materialFor == old(x.materialFor) + Linked(itemList, MaterialItem, x)
    {
      raw := row;
      item := GetProperty(items, row.itemId);
      itemList := [];
      new;
      if item.Some? {
        item.value.createdBy := item.value.createdBy + [this];
      }
      itemList := Materials(row.itemList, this, items);
    }

    /** `data.itemList.map(...)`: one new material per row, in order,
        each appended to the `material_for` of the item it resolves to. */
    static method Materials(rows: seq<RecipeItemRow>, recipe: RecipeData, items: Table<string, ItemData>)
      returns (ms: seq<RecipeItemInfo>)
      modifies items.rows.Values`materialFor
      ensures |ms| == |rows| && Distinct(ms)
      ensures forall k :: 0 <= k < |ms| ==>
                fresh(ms[k]) && ms[k].raw == rows[k] && ms[k].recipe == recipe
                && ms[k].item == GetProperty(items, rows[k].itemId)
      ensures forall x :: x in items.rows.Values ==>
                x.materialFor == old(x.materialFor) + Linked(ms, MaterialItem, x)
    {
      ms := [];
      for j := 0 to |rows|
        invariant |ms| == j && Distinct(ms)
        invariant forall k :: 0 <= k < j ==>
                    fresh(ms[k]) && ms[k].raw == rows[k] && ms[k].recipe == recipe
                    && ms[k].item == GetProperty(items, rows[k].itemId)
        invariant forall x :: x in items.rows.Values ==>
                    x.materialFor == old(x.materialFor) + Linked(ms, MaterialItem, x)
      {
        var r := new RecipeItemInfo(rows[j], recipe, items);
        forall x | x in items.rows.Values
          ensures old(x.materialFor) + Linked(ms + [r], MaterialItem, x)
               == old(x.materialFor) + Linked(ms, MaterialItem, x) + if MaterialItem(r) == Some(x) then [r] else []
        {
          LinkedSnoc(old(x.materialFor), ms, r, MaterialItem, x);
        }
        DistinctSnoc(ms, r);
        ms := ms + [r];
      }
    }

    /** The rows `made` so far: all different, each in the state its
        callback left it in, holding the children `kids` records for it. */
    static ghost predicate Made(made: seq<RecipeData>, es: seq<Entry<RecipeRow>>, items: Table<string, ItemData>,
                                kids: seq<seq<RecipeItemInfo>>)
      reads made
    {
      && |made| == |kids| <= |es| && Distinct(made)
      && forall j :: 0 <= j < |made| ==> made[j].Initial(es[j].value, items) && made[j].itemList == kids[j]
    }

    static lemma MadeSnoc(made: seq<RecipeData>, es: seq<Entry<RecipeRow>>, items: Table<string, ItemData>,
                          kids: seq<seq<RecipeItemInfo>>, r: RecipeData)
      requires Made(made, es, items, kids) && |made| < |es|
      requires r !in made && r.Initial(es[|made|].value, items)
      ensures Made(made + [r], es, items, kids + [r.itemList])
    {
      DistinctConcat(made, [r]);
    }

    static method CreateAll(es: seq<Entry<RecipeRow>>, items: Table<string, ItemData>)
      returns (made: seq<RecipeData>, ghost kids: seq<seq<RecipeItemInfo>>)
      modifies items.rows.Values`createdBy
      modifies items.rows.Values`materialFor
      ensures |made| == |es| && |kids| == |es| && Distinct(made)
      ensures forall i :: 0 <= i < |made| ==>
                fresh(made[i]) && made[i].Initial(es[i].value, items) && made[i].itemList == kids[i]
      ensures forall x :: x in items.rows.Values ==>
                && x.createdBy == old(x.createdBy) + Linked(made, RecipeItem, x)
                && x.materialFor == old(x.materialFor) + Linked(Flatten(kids), MaterialItem, x)
      ensures forall j, c :: 0 <= j < |kids| && c in kids[j] ==> fresh(c)
    {
      ghost var before := map x | x in items.rows.Values :: (x.createdBy, x.materialFor);
      made, kids := [], [];
      for i := 0 to |es|
        invariant |made| == i && Made(made, es, items, kids)
        invariant forall j :: 0 <= j < i ==> fresh(made[j])
        invariant forall j, c :: 0 <= j < |kids| && c in kids[j] ==> fresh(c)
        invariant forall x :: x in items.rows.Values ==>
                    && x in before
                    && x.createdBy == before[x].0 + Linked(made, RecipeItem, x)
                    && x.materialFor == before[x].1 + Linked(Flatten(kids), MaterialItem, x)
      {
        var r;
        ghost var rd;
        r, rd := Next(es, i, items, before, made, kids);
        kids, made := kids + [rd], made + [r];
      }
    }

    /** One turn of the loop of `CreateAll`: the recipe made from the next
        entry, with its materials `rd`, extends the rows made so far, and
        every item's two lists are their values `before` the loop followed
        by the links of every recipe and material made so far. */
    static method Next(es: seq<Entry<RecipeRow>>, i: nat, items: Table<string, ItemData>,
                       ghost before: map<ItemData, (seq<RecipeData>, seq<RecipeItemInfo>)>,
                       ghost made: seq<RecipeData>, ghost kids: seq<seq<RecipeItemInfo>>)
      returns (r: RecipeData, ghost rd: seq<RecipeItemInfo>)
      requires i == |made| < |es| && Made(made, es, items, kids)
      requires forall x :: x in items.rows.Values ==>
                 && x in before
                 && x.createdBy == before[x].0 + Linked(made, RecipeItem, x)
                 && x.materialFor == before[x].1 + Linked(Flatten(kids), MaterialItem, x)
      modifies items.rows.Values`createdBy
      modifies items.rows.Values`materialFor
      ensures fresh(r) && forall c :: c in rd ==> fresh(c)
      ensures Made(made + [r], es, items, kids + [rd])
      ensures forall x :: x in items.rows.Values ==>
                && x.createdBy == before[x].0 + Linked(made + [r], RecipeItem, x)
                && x.materialFor == before[x].1 + Linked(Flatten(kids + [rd]), MaterialItem, x)
    {
      r := new RecipeData(es[i].value, items);
      MadeSnoc(made, es, items, kids, r);
      rd := r.itemList;
      FlattenSnoc(kids, rd);
      forall x | x in items.rows.Values
        ensures before[x].0 + Linked(made + [r], RecipeItem, x)
             == before[x].0 + Linked(made, RecipeItem, x) + if RecipeItem(r) == Some(x) then [r] else []
        ensures before[x].1 + Linked(Flatten(kids) + rd, MaterialItem, x)
             == before[x].1 + Linked(Flatten(kids), MaterialItem, x) + Linked(rd, MaterialItem, x)
      {
        LinkedSnoc(before[x].0, made, r, RecipeItem, x);
        LinkedExtend(before[x].1, Flatten(kids), rd, MaterialItem, x);
      }
    }

    /** The children of all created rows: no child twice, each owned by
        a created row, and every row's children among them. This only
        applies `Tables.FlattenDistinct` to this row type's owner. */
    static lemma Owners(es: seq<Entry<RecipeRow>>, items: Table<string, ItemData>,
                        made: seq<RecipeData>, kids: seq<seq<RecipeItemInfo>>)
      requires |made| == |es| && |kids| == |es|
      requires forall i :: 0 <= i < |made| ==> made[i].Initial(es[i].value, items) && made[i].itemList == kids[i]
      requires Distinct(made)
      ensures Distinct(Flatten(kids)) && forall c :: c in Flatten(kids) ==> MaterialRecipe(c) in made
      ensures forall i, c :: 0 <= i < |made| && c in made[i].itemList ==> c in Flatten(kids)
    {
      FlattenDistinct(made, kids, MaterialRecipe);
    }

    /** `RecipeData.load` (docs/main.ts:390-399). `materials` are the
        materials of every created recipe, recipe by recipe. */
    static method Load(resp: Response<RecipeRow>, items: Table<string, ItemData>)
      returns (t: Table<string, RecipeData>, ghost rows: seq<RecipeData>,
               ghost kids: seq<seq<RecipeItemInfo>>, ghost materials: seq<RecipeItemInfo>)
      modifies items.rows.Values`createdBy
      modifies items.rows.Values`materialFor
      ensures |rows| == |Entries(resp)| && Distinct(rows)
      ensures t == Build(NormalKeys(Entries(resp)), rows)
      ensures forall i :: 0 <= i < |rows| ==> fresh(rows[i]) && rows[i].Initial(Entries(resp)[i].value, items)
      ensures |kids| == |rows| && (forall i :: 0 <= i < |rows| ==> rows[i].itemList == kids[i]) && materials == Flatten(kids)
      ensures Distinct(materials) && forall r :: r in materials ==> r.recipe in rows
      ensures forall i, r :: 0 <= i < |rows| && r in rows[i].itemList ==> r in materials
      ensures forall x :: x in items.rows.Values ==>
                x.createdBy == old(x.createdBy) + Linked(rows, RecipeItem, x)
      ensures forall x :: x in items.rows.Values ==>
                x.materialFor == old(x.materialFor) + Linked(materials, MaterialItem, x)
      ensures forall c :: c in materials ==> fresh(c)
    {
      var made;
      made, kids := CreateAll(Entries(resp), items);
      Owners(Entries(resp), items, made, kids);
      t := LoadData(resp, made);
      rows, materials := made, Flatten(kids);
      forall c | c in materials ensures fresh(c) {
        FlattenMember(kids, c);
      }
    }
  }

  function RecipeRaw(x: RecipeData): RecipeRow {
    x.raw
  }
}
