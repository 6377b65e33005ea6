/**
 * docs/main.js: the compiled output of an older revision of the loader.
 * Its `loadData` stores every entry under `entry.Key` exactly as parsed,
 * with no reduction of a structured key to its `Name`; its entity classes
 * are fewer and carry fewer back-reference lists; and its `GameData.load`
 * stops after the maps, each of which loads only its pick points.
 *
 * The row datatypes, the documents and the `Table` map are those of the
 * newer revision; only the key type of the tables differs.
 */
module Legacy {
  import opened Tables
  import opened Rows
  import Entities
  import Orchestrator

  // ---------------------------------------------------------------------
  // Keys, `loadData` and `getProperty`

  /** A key of the older loader's `Map`: `entry.Key` as parsed. A string key
      is compared by its characters; a structured key is an object, equal
      only to itself, so the one parsed from entry `entry` of document
      `doc` is `JsObject(doc, entry)`, and no key of another entry or
      another document is that object. A document is named by its path,
      and an item document by its category, as `Orchestrator.Sources`
      looks them up. */
  datatype JsKey = JsString(s: string) | JsObject(doc: string, entry: nat)

  /** The key entry `i` is stored under: a string verbatim, any other key
      as the object it is. */
  function JsKeyOf(doc: string, k: Key, i: nat): JsKey {
    if IsString(k) then JsString(k.str) else JsObject(doc, i)
  }

  /** The keys the older `loadData` sets, one per entry, in entry order. */
  function JsKeys<V>(doc: string, es: seq<Entry<V>>): (ks: seq<JsKey>)
    ensures |ks| == |es|
  {
    if es == [] then [] else JsKeys(doc, es[..|es| - 1]) + [JsKeyOf(doc, es[|es| - 1].key, |es| - 1)]
  }

  lemma {:induction false} JsKeysAt<V>(doc: string, es: seq<Entry<V>>)
    ensures forall i :: 0 <= i < |es| ==> JsKeys(doc, es)[i] == JsKeyOf(doc, es[i].key, i)
  {
    if es != [] {
      JsKeysAt(doc, es[..|es| - 1]);
      assert forall i :: 0 <= i < |es| - 1 ==> es[..|es| - 1][i] == es[i];
    }
  }

  lemma JsKeysInit<V>(doc: string, es: seq<Entry<V>>)
    requires es != []
    ensures JsKeys(doc, es)[..|es| - 1] == JsKeys(doc, es[..|es| - 1])
  {
  }

  /** The older `loadData`'s loop (docs/main.js:8-10): every constructed row
      is set under its entry's key as parsed, in entry order; a failed
      fetch or a missing `m_dataMap` leaves the map empty. */
  method LoadRaw<V, T>(doc: string, resp: Response<V>, rows: seq<T>) returns (t: Table<JsKey, T>)
    requires |rows| == |Entries(resp)|
    ensures t == Build(JsKeys(doc, Entries(resp)), rows)
  {
    var es := Entries(resp);
    ghost var keys := JsKeys(doc, es);
    JsKeysAt(doc, es);
    t := Empty();
    for i := 0 to |es|
      invariant t == Build(keys[..i], rows[..i])
    {
      BuildPrefix(keys, rows, i);
      t := t.Set(JsKeyOf(doc, es[i].key, i), rows[i]);
    }
    assert keys[..|es|] == keys && rows[..|es|] == rows;
  }

  /** `t` holds the keys of `resp`'s entries as parsed, in the order the
      older loader sets them. */
  ghost predicate KeysLoaded<V, T>(t: Table<JsKey, T>, doc: string, resp: Response<V>) {
    t.Valid() && t.order == KeyOrder(JsKeys(doc, Entries(resp)))
  }

  /** A table the older loader built is well formed, keyed in the order
      its entries' keys first occur, and holds only the constructed rows;
      a failed fetch and a document without `m_dataMap` give the empty
      table. */
  lemma KeysBuilt<V, T>(doc: string, resp: Response<V>, rows: seq<T>)
    requires |rows| == |Entries(resp)|
    ensures KeysLoaded(Build(JsKeys(doc, Entries(resp)), rows), doc, resp)
    ensures forall v :: v in Build(JsKeys(doc, Entries(resp)), rows).rows.Values ==> v in rows
    ensures Entries(resp) == [] ==> Build(JsKeys(doc, Entries(resp)), rows) == Table([], map[])
  {
    BuildOrder(JsKeys(doc, Entries(resp)), rows);
    BuildValues(JsKeys(doc, Entries(resp)), rows);
  }

  /** `t` holds the keys of `resp`'s entries as parsed, each with the row
      built from the last entry under that key. */
  ghost predicate KeysFrom<V, T>(t: Table<JsKey, T>, doc: string, resp: Response<V>, raw: T -> V) {
    && KeysLoaded(t, doc, resp)
    && forall k :: k in t.rows ==> LastValue(JsKeys(doc, Entries(resp)), Entries(resp), k) == Some(raw(t.rows[k]))
  }

  /** Loading rows created each from its own entry gives a table
      `KeysFrom` the document, holding only those rows. */
  lemma KeysBuiltFrom<V, T>(doc: string, resp: Response<V>, rows: seq<T>, raw: T -> V)
    requires |rows| == |Entries(resp)| && forall i :: 0 <= i < |rows| ==> raw(rows[i]) == Entries(resp)[i].value
    ensures KeysFrom(Build(JsKeys(doc, Entries(resp)), rows), doc, resp, raw)
    ensures forall v :: v in Build(JsKeys(doc, Entries(resp)), rows).rows.Values ==> v in rows
  {
    KeysBuilt(doc, resp, rows);
    BuildFrom(JsKeys(doc, Entries(resp)), Entries(resp), rows, raw);
  }

  /** An entry with a structured key keeps its own slot: its row is in
      the table, under the object no other entry shares. */
  lemma ObjectKeysKept<V, T>(doc: string, es: seq<Entry<V>>, rows: seq<T>, i: nat)
    requires |rows| == |es| && i < |es| && !IsString(es[i].key)
    ensures JsObject(doc, i) in Build(JsKeys(doc, es), rows).rows
    ensures Build(JsKeys(doc, es), rows).rows[JsObject(doc, i)] == rows[i]
  {
    JsKeysAt(doc, es);
    BuildLastWins(JsKeys(doc, es), rows, i);
  }

  /** The older `getProperty` (docs/main.js:15-17): the sentinel `'None'`
      and a missing key both give null; otherwise the entry stored under
      the string `prop`. */
  function Resolve<T(==)>(m: Table<JsKey, T>, prop: string): (r: Option<T>)
    ensures prop == "None" ==> r.None?
    ensures prop != "None" && JsString(prop) !in m.rows ==> r.None?
    ensures prop != "None" && JsString(prop) in m.rows ==> r == Some(m.rows[JsString(prop)])
    ensures r.Some? ==> r.value in m.rows.Values
  {
    if prop == "None" then None else m.Get(JsString(prop))
  }

  /** The position of the last entry whose key is the string `prop`, or
      -1 when there is none. */
  function LastStringIndex<V>(es: seq<Entry<V>>, prop: string): (i: int)
    ensures -1 <= i < |es|
    ensures 0 <= i ==> es[i].key == StrKey(prop)
    ensures forall j :: i < j < |es| ==> es[j].key != StrKey(prop)
  {
    if es == [] then -1
    else if es[|es| - 1].key == StrKey(prop) then |es| - 1
    else
      var i := LastStringIndex(es[..|es| - 1], prop);
      assert forall j :: i < j < |es| - 1 ==> es[..|es| - 1][j] == es[j];
      i
  }

  /** The row of the last entry whose key is the string `prop`, if any. */
  function LastStringRow<V, T>(es: seq<Entry<V>>, rows: seq<T>, prop: string): (r: Option<T>)
    requires |rows| == |es|
    ensures r.None? <==> forall i :: 0 <= i < |es| ==> es[i].key != StrKey(prop)
  {
    var i := LastStringIndex(es, prop);
    if i < 0 then None else Some(rows[i])
  }

  /** When there is such a row, it is that of an entry keyed by `prop`
      with no later entry keyed by `prop`. */
  lemma LastStringRowIs<V, T>(es: seq<Entry<V>>, rows: seq<T>, prop: string)
    requires |rows| == |es| && LastStringRow(es, rows, prop).Some?
    ensures exists i :: && 0 <= i < |es| && es[i].key == StrKey(prop) && LastStringRow(es, rows, prop) == Some(rows[i])
                        && forall j :: i < j < |es| ==> es[j].key != StrKey(prop)
  {
    var i := LastStringIndex(es, prop);
    assert LastStringRow(es, rows, prop) == Some(rows[i]);
  }

  /** Looking up the string `prop` in a table the older loader built finds
      the row of the last entry whose key is exactly that string. */
  lemma {:induction false} LookupBuilt<V, T>(doc: string, es: seq<Entry<V>>, rows: seq<T>, prop: string)
    requires |rows| == |es|
    ensures Build(JsKeys(doc, es), rows).Get(JsString(prop)) == LastStringRow(es, rows, prop)
  {
    if es != [] {
      var n := |es| - 1;
      LookupBuilt(doc, es[..n], rows[..n], prop);
      JsKeysInit(doc, es);
      if es[n].key != StrKey(prop) {
        assert LastStringIndex(es, prop) == LastStringIndex(es[..n], prop);
      }
    }
  }

  /** Resolving against a table the older loader built: null for the
      sentinel, otherwise the row of the last entry whose key is the
      string `prop`, and null when there is none; an entry with a
      structured key is never what a reference resolves to. */
  lemma ResolveBuilt<V, T>(doc: string, es: seq<Entry<V>>, rows: seq<T>, prop: string)
    requires |rows| == |es|
    ensures Resolve(Build(JsKeys(doc, es), rows), prop) == if prop == "None" then None else LastStringRow(es, rows, prop)
  {
    LookupBuilt(doc, es, rows, prop);
  }

  /** On a document whose keys are all strings the two revisions load the
      same lookups: every reference resolves to the same row. */
  lemma RevisionsAgree<V, T>(doc: string, es: seq<Entry<V>>, rows: seq<T>, prop: string)
    requires |rows| == |es| && forall i :: 0 <= i < |es| ==> IsString(es[i].key)
    ensures Resolve(Build(JsKeys(doc, es), rows), prop) == Tables.GetProperty(Build(NormalKeys(es), rows), prop)
  {
    LookupsAgree(doc, es, rows, prop);
  }

  lemma {:induction false} LookupsAgree<V, T>(doc: string, es: seq<Entry<V>>, rows: seq<T>, prop: string)
    requires |rows| == |es| && forall i :: 0 <= i < |es| ==> IsString(es[i].key)
    ensures Build(JsKeys(doc, es), rows).Get(JsString(prop)) == Build(NormalKeys(es), rows).Get(prop)
  {
    if es != [] {
      var n := |es| - 1;
      BuildStringLast(doc, es, rows);
      assert forall i :: 0 <= i < n ==> es[..n][i] == es[i];
      LookupsAgree(doc, es[..n], rows[..n], prop);
      LookupStep(Build(JsKeys(doc, es[..n]), rows[..n]), Build(NormalKeys(es[..n]), rows[..n]), es[n].key.str, rows[n], prop);
    }
  }

  /** An entry with a string key, last in the document, sets the same
      string in both revisions over what the entries before it built. */
  lemma BuildStringLast<V, T>(doc: string, es: seq<Entry<V>>, rows: seq<T>)
    requires |rows| == |es| && es != [] && IsString(es[|es| - 1].key)
    ensures Build(JsKeys(doc, es), rows)
         == Build(JsKeys(doc, es[..|es| - 1]), rows[..|es| - 1]).Set(JsString(es[|es| - 1].key.str), rows[|es| - 1])
    ensures Build(NormalKeys(es), rows)
         == Build(NormalKeys(es[..|es| - 1]), rows[..|es| - 1]).Set(es[|es| - 1].key.str, rows[|es| - 1])
  {
    var n := |es| - 1;
    assert es == es[..n] + [es[n]] && rows == rows[..n] + [rows[n]];
    BuildStringSnoc(doc, es[..n], rows[..n], es[n], rows[n]);
  }

  lemma BuildStringSnoc<V, T>(doc: string, es: seq<Entry<V>>, rows: seq<T>, e: Entry<V>, v: T)
    requires |rows| == |es| && IsString(e.key)
    ensures Build(JsKeys(doc, es + [e]), rows + [v]) == Build(JsKeys(doc, es), rows).Set(JsString(e.key.str), v)
    ensures Build(NormalKeys(es + [e]), rows + [v]) == Build(NormalKeys(es), rows).Set(e.key.str, v)
  {
    assert (es + [e])[..|es|] == es;
    assert (rows + [v])[..|es|] == rows;
  }

  /** Setting the same string key in both kinds of table keeps their
      lookups of `prop` alike. */
  lemma LookupStep<T>(a: Table<JsKey, T>, b: Table<string, T>, s: string, v: T, prop: string)
    requires a.Get(JsString(prop)) == b.Get(prop)
    ensures a.Set(JsString(s), v).Get(JsString(prop)) == b.Set(s, v).Get(prop)
  {
  }

  /** On a structured key the revisions part: the newer loader finds the
      row under the key's `Name`, the older one never finds it. */
  lemma StructuredKeyDiverges<T>(doc: string, name: string, v: T)
    requires name != "None"
    ensures Tables.GetProperty(Build(NormalKeys([Entry(NamedKey(name), v)]), [v]), name) == Some(v)
    ensures Resolve(Build(JsKeys(doc, [Entry(NamedKey(name), v)]), [v]), name) == None
  {
    var es := [Entry(NamedKey(name), v)];
    assert es[..0] == [];
    ResolveBuilt(doc, es, [v], name);
  }

  // ---------------------------------------------------------------------
  // Text

  /** The display string of a text row in the older revision: element 0's
      language field of the array under `textField`, read with no check
      that the array has an element (a missing language field is
      JavaScript's `undefined`, `None` here). */
  function TextOf(row: TextRow, textField: string, langField: string): (r: Option<string>)
    requires textField in row.fields && |row.fields[textField]| > 0
    ensures r.Some? <==> langField in row.fields[textField][0]
    ensures r.Some? ==> r.value == row.fields[textField][0][langField]
  {
    var info := row.fields[textField];
    if langField in info[0] then Some(info[0][langField]) else None
  }

  /** Where the older revision can read a text at all, it reads the one
      the newer revision does. */
  lemma TextAgrees(row: TextRow, textField: string, langField: string)
    requires textField in row.fields && |row.fields[textField]| > 0
    ensures TextOf(row, textField, langField) == Entities.TextOf(row, textField, langField)
  {
  }

  /** Every row of a text document has a non-empty array under `field`,
      which the older `TextData.load` needs to read element 0. */
  ghost predicate HasText(resp: Response<TextRow>, field: string) {
    forall e :: e in Entries(resp) ==> field in e.value.fields && |e.value.fields[field]| > 0
  }

  class TextData {
    const raw: TextRow
    const text: Option<string>

    constructor (row: TextRow, text: Option<string>)
      ensures raw == row && this.text == text
    {
      raw := row;
      this.text := text;
    }

    /** The row callback of `TextData.load` (docs/main.js:25-29), entry by
        entry. */
    static method CreateAll(es: seq<Entry<TextRow>>, textField: string, langField: string)
      returns (made: seq<TextData>)
      requires forall e :: e in es ==> textField in e.value.fields && |e.value.fields[textField]| > 0
      ensures |made| == |es| && Distinct(made)
      ensures forall i :: 0 <= i < |made| ==>
                fresh(made[i]) && made[i].raw == es[i].value
                && made[i].text == TextOf(made[i].raw, textField, langField)
    {
      made := [];
      for i := 0 to |es|
        invariant |made| == i && Distinct(made)
        invariant forall j :: 0 <= j < i ==>
                    fresh(made[j]) && made[j].raw == es[j].value
                    && made[j].text == TextOf(made[j].raw, textField, langField)
      {
        assert es[i] in es;
        var text := new TextData(es[i].value, TextOf(es[i].value, textField, langField));
        DistinctSnoc(made, text);
        made := made + [text];
      }
    }

    /** `TextData.load` (docs/main.js:24-30). */
    static method Load(doc: string, resp: Response<TextRow>, textField: string, langField: string)
      returns (t: Table<JsKey, TextData>, ghost rows: seq<TextData>)
      requires HasText(resp, textField)
      ensures |rows| == |Entries(resp)| && Distinct(rows)
      ensures t == Build(JsKeys(doc, Entries(resp)), rows)
      ensures forall i :: 0 <= i < |rows| ==>
                fresh(rows[i]) && rows[i].raw == Entries(resp)[i].value
                && rows[i].text == TextOf(rows[i].raw, textField, langField)
    {
      var made := CreateAll(Entries(resp), textField, langField);
      t := LoadRaw(doc, resp, made);
      rows := made;
    }
  }

  function TextRaw(x: TextData): TextRow {
    x.raw
  }

  // ---------------------------------------------------------------------
  // Items and item tables

  class ItemData {
    const raw: ItemRow
    const name: Option<TextData>
    const desc: Option<TextData>
    var tables: seq<ItemTableDetail>

    /** The state loading leaves an item in: built from `row`, its name and
        description resolved, in no item table yet. */
    ghost predicate Initial(row: ItemRow, names: Table<JsKey, TextData>, descs: Table<JsKey, TextData>)
      reads this
    {
      && raw == row && tables == []
      && name == Resolve(names, row.nameId) && desc == Resolve(descs, row.descId)
    }

    /** The row callback of `ItemData.load` (docs/main.js:38-43). */
    constructor (row: ItemRow, names: Table<JsKey, TextData>, descs: Table<JsKey, TextData>)
      ensures Initial(row, names, descs)
    {
      raw := row;
      name := Resolve(names, row.nameId);
      desc := Resolve(descs, row.descId);
      tables := [];
    }

    static method CreateAll(es: seq<Entry<ItemRow>>, names: Table<JsKey, TextData>, descs: Table<JsKey, TextData>)
      returns (made: seq<ItemData>)
      ensures |made| == |es| && Distinct(made)
      ensures forall i :: 0 <= i < |made| ==> fresh(made[i]) && made[i].Initial(es[i].value, names, descs)
    {
      made := [];
      for i := 0 to |es|
        invariant |made| == i && Distinct(made)
        invariant forall j :: 0 <= j < i ==> fresh(made[j]) && made[j].Initial(es[j].value, names, descs)
      {
        var item := new ItemData(es[i].value, names, descs);
        DistinctSnoc(made, item);
        made := made + [item];
      }
    }

    /** `ItemData.load` (docs/main.js:37-44). */
    static method Load(doc: string, resp: Response<ItemRow>, names: Table<JsKey, TextData>,
                       descs: Table<JsKey, TextData>)
      returns (t: Table<JsKey, ItemData>, ghost rows: seq<ItemData>)
      ensures |rows| == |Entries(resp)| && Distinct(rows)
      ensures t == Build(JsKeys(doc, Entries(resp)), rows)
      ensures forall i :: 0 <= i < |rows| ==> fresh(rows[i]) && rows[i].Initial(Entries(resp)[i].value, names, descs)
    {
      var made := CreateAll(Entries(resp), names, descs);
      t := LoadRaw(doc, resp, made);
      rows := made;
    }
  }

  function ItemRaw(x: ItemData): ItemRow {
    x.raw
  }

  class ItemTableDetail {
    const raw: DetailRow
    const table: ItemTableSetting
    const item: Option<ItemData>

    /** docs/main.js:47-54: resolve `ItemId`; when it resolves, append this
        detail to that item's `tables`. */
    constructor (row: DetailRow, table: ItemTableSetting, items: Table<JsKey, ItemData>)
      modifies items.rows.Values`tables
      ensures raw == row && this.table == table && item == Resolve(items, row.itemId)
      ensures forall x :: x in items.rows.Values ==>
                x.tables == old(x.tables) + if item == Some(x) then [this] else []
    {
      raw := row;
      this.table := table;
      item := Resolve(items, row.itemId);
      new;
      if item.Some? {
        item.value.tables := item.value.tables + [this];
      }
    }
  }

  function DetailItem(d: ItemTableDetail): Option<ItemData> {
    d.item
  }

  function DetailTable(d: ItemTableDetail): ItemTableSetting {
    d.table
  }

  class ItemTableSetting {
    const raw: TableRow
    var data: seq<ItemTableDetail>
    var groups: seq<ItemTableGroupData>

    /** `data` holds one new detail per element of `tableData`, in order,
        each owned by this table and resolved against `items`. */
    ghost predicate Holds(items: Table<JsKey, ItemData>)
      reads this`data
    {
      && |data| == |raw.tableData| && Distinct(data)
      && forall j :: 0 <= j < |data| ==>
           data[j].raw == raw.tableData[j] && data[j].table == this
           && data[j].item == Resolve(items, raw.tableData[j].itemId)
    }

    /** The state loading leaves a table in: built from `row`, and not
        yet in any group. */
    ghost predicate Initial(row: TableRow, items: Table<JsKey, ItemData>)
      reads this
    {
      raw == row && groups == [] && Holds(items)
    }

    /** `new ItemTableSetting(data)` followed by mapping `tableData` to
        details (docs/main.js:63-64). */
    constructor (row: TableRow, items: Table<JsKey, ItemData>)
      modifies items.rows.Values`tables
      ensures Initial(row, items)
      ensures forall j :: 0 <= j < |data| ==> fresh(data[j])
      ensures forall x :: x in items.rows.Values ==>
                x.tables == old(x.tables) + Linked(data, DetailItem, x)
    {
      raw := row;
      data, groups := [], [];
      new;
      for j := 0 to |row.tableData|
        invariant |data| == j && groups == []
        invariant forall k :: 0 <= k < j ==>
                    data[k].raw == raw.tableData[k] && data[k].table == this
                    && data[k].item == Resolve(items, raw.tableData[k].itemId)
        invariant Distinct(data) && forall k :: 0 <= k < j ==> fresh(data[k])
        invariant forall x :: x in items.rows.Values ==>
                    x.tables == old(x.tables) + Linked(data, DetailItem, x)
      {
        var d := new ItemTableDetail(row.tableData[j], this, items);
        forall x | x in items.rows.Values
          ensures old(x.tables) + Linked(data + [d], DetailItem, x)
               == old(x.tables) + Linked(data, DetailItem, x) + if DetailItem(d) == Some(x) then [d] else []
        {
          LinkedSnoc(old(x.tables), data, d, DetailItem, x);
        }
        DistinctSnoc(data, d);
        data := data + [d];
      }
    }

    /** The rows `made` so far: all different, each in the state its
        callback left it in, holding the children `kids` records for it. */
    static ghost predicate Made(made: seq<ItemTableSetting>, es: seq<Entry<TableRow>>, items: Table<JsKey, ItemData>,
                                kids: seq<seq<ItemTableDetail>>)
      reads made
    {
      && |made| == |kids| <= |es| && Distinct(made)
      && forall j :: 0 <= j < |made| ==> made[j].Initial(es[j].value, items) && made[j].data == kids[j]
    }

    static lemma MadeSnoc(made: seq<ItemTableSetting>, es: seq<Entry<TableRow>>, items: Table<JsKey, ItemData>,
                          kids: seq<seq<ItemTableDetail>>, r: ItemTableSetting)
      requires Made(made, es, items, kids) && |made| < |es|
      requires r !in made && r.Initial(es[|made|].value, items)
      ensures Made(made + [r], es, items, kids + [r.data])
    {
      DistinctConcat(made, [r]);
    }

    /** The row callback of `ItemTableSetting.load`, entry by entry;
        `kids[i]` are the details of table i. */
    static method CreateAll(es: seq<Entry<TableRow>>, items: Table<JsKey, ItemData>)
      returns (made: seq<ItemTableSetting>, ghost kids: seq<seq<ItemTableDetail>>)
      modifies items.rows.Values`tables
      ensures |made| == |es| && |kids| == |es| && Distinct(made)
      ensures forall i :: 0 <= i < |made| ==>
                fresh(made[i]) && made[i].Initial(es[i].value, items) && made[i].data == kids[i]
      ensures forall x :: x in items.rows.Values ==>
                x.tables == old(x.tables) + Linked(Flatten(kids), DetailItem, x)
      ensures forall j, c :: 0 <= j < |kids| && c in kids[j] ==> fresh(c)
    {
      made, kids := [], [];
      for i := 0 to |es|
        invariant |made| == i && Made(made, es, items, kids)
        invariant forall j :: 0 <= j < i ==> fresh(made[j])
        invariant forall j, c :: 0 <= j < |kids| && c in kids[j] ==> fresh(c)
        invariant forall x :: x in items.rows.Values ==>
                    x.tables == old(x.tables) + Linked(Flatten(kids), DetailItem, x)
      {
        var s := new ItemTableSetting(es[i].value, items);
        MadeSnoc(made, es, items, kids, s);
        ghost var sd := s.data;
        FlattenSnoc(kids, sd);
        forall x | x in items.rows.Values
          ensures old(x.tables) + Linked(Flatten(kids) + sd, DetailItem, x)
               == old(x.tables) + Linked(Flatten(kids), DetailItem, x) + Linked(sd, DetailItem, x)
        {
          LinkedExtend(old(x.tables), Flatten(kids), sd, DetailItem, x);
        }
        kids := kids + [sd];
        made := made + [s];
      }
    }

    /** The children of all created rows: no child twice, each owned by
        a created row, and every row's children among them. This only
        applies `Tables.FlattenDistinct` to this row type's owner. */
    static lemma Owners(es: seq<Entry<TableRow>>, items: Table<JsKey, ItemData>,
                        made: seq<ItemTableSetting>, kids: seq<seq<ItemTableDetail>>)
      requires |made| == |es| && |kids| == |es|
      requires forall i :: 0 <= i < |made| ==> made[i].Initial(es[i].value, items) && made[i].data == kids[i]
      requires Distinct(made)
      ensures Distinct(Flatten(kids)) && forall c :: c in Flatten(kids) ==> DetailTable(c) in made
      ensures forall i, c :: 0 <= i < |made| && c in made[i].data ==> c in Flatten(kids)
    {
      FlattenDistinct(made, kids, DetailTable);
    }

    /** `ItemTableSetting.load` (docs/main.js:61-67). `details` are the
        details of every created table, table by table. */
    static method Load(doc: string, resp: Response<TableRow>, items: Table<JsKey, ItemData>)
      returns (t: Table<JsKey, ItemTableSetting>, ghost rows: seq<ItemTableSetting>,
               ghost kids: seq<seq<ItemTableDetail>>, ghost details: seq<ItemTableDetail>)
      modifies items.rows.Values`tables
      ensures |rows| == |Entries(resp)| && Distinct(rows)
      ensures t == Build(JsKeys(doc, Entries(resp)), rows)
      ensures forall i :: 0 <= i < |rows| ==> fresh(rows[i]) && rows[i].Initial(Entries(resp)[i].value, items)
      ensures |kids| == |rows| && (forall i :: 0 <= i < |rows| ==> rows[i].data == kids[i]) && details == Flatten(kids)
      ensures Distinct(details) && forall d :: d in details ==> d.table in rows
      ensures forall i, d :: 0 <= i < |rows| && d in rows[i].data ==> d in details
      ensures forall x :: x in items.rows.Values ==>
                x.tables == old(x.tables) + Linked(details, DetailItem, x)
      ensures forall c :: c in details ==> fresh(c)
    {
      var made;
      made, kids := CreateAll(Entries(resp), items);
      Owners(Entries(resp), items, made, kids);
      t := LoadRaw(doc, resp, made);
      rows, details := made, Flatten(kids);
      forall c | c in details ensures fresh(c) {
        FlattenMember(kids, c);
      }
    }
  }

  function TableRaw(x: ItemTableSetting): TableRow {
    x.raw
  }

  class ItemTableGroupData {
    const raw: GroupEntryRow
    const group: ItemTableGroupSetting
    const table: Option<ItemTableSetting>

    /** docs/main.js:70-77: resolve `tableId`; when it resolves, append
        this entry to that table's `groups`. */
    constructor (row: GroupEntryRow, group: ItemTableGroupSetting, tables: Table<JsKey, ItemTableSetting>)
      modifies tables.rows.Values`groups
      ensures raw == row && this.group == group && table == Resolve(tables, row.tableId)
      ensures forall x :: x in tables.rows.Values ==>
                x.groups == old(x.groups) + if table == Some(x) then [this] else []
    {
      raw := row;
      this.group := group;
      table := Resolve(tables, row.tableId);
      new;
      if table.Some? {
        table.value.groups := table.value.groups + [this];
      }
    }
  }

  function EntryTable(g: ItemTableGroupData): Option<ItemTableSetting> {
    g.table
  }

  function EntryGroupOf(g: ItemTableGroupData): ItemTableGroupSetting {
    g.group
  }

  class ItemTableGroupSetting {
    const raw: GroupRow
    var data: seq<ItemTableGroupData>
    var pickParams: seq<CommonPickParamData>
    var vegetableParams: seq<VegetableParamData>

    /** `data` holds one new entry per element of `tableData`, in order,
        each owned by this group and resolved against `tables`. */
    ghost predicate Holds(tables: Table<JsKey, ItemTableSetting>)
      reads this`data
    {
      && |data| == |raw.tableData| && Distinct(data)
      && forall j :: 0 <= j < |data| ==>
           data[j].raw == raw.tableData[j] && data[j].group == this
           && data[j].table == Resolve(tables, raw.tableData[j].tableId)
    }

    /** The state loading leaves a group in: built from `row`, and not yet
        the drop of any param. */
    ghost predicate Initial(row: GroupRow, tables: Table<JsKey, ItemTableSetting>)
      reads this
    {
      raw == row && pickParams == [] && vegetableParams == [] && Holds(tables)
    }

    /** `new ItemTableGroupSetting(data)` followed by mapping `tableData`
        to entries (docs/main.js:87-88). */
    constructor (row: GroupRow, tables: Table<JsKey, ItemTableSetting>)
      modifies tables.rows.Values`groups
      ensures Initial(row, tables)
      ensures forall j :: 0 <= j < |data| ==> fresh(data[j])
      ensures forall x :: x in tables.rows.Values ==>
                x.groups == old(x.groups) + Linked(data, EntryTable, x)
    {
      raw := row;
      data, pickParams, vegetableParams := [], [], [];
      new;
      for j := 0 to |row.tableData|
        invariant |data| == j && pickParams == [] && vegetableParams == []
        invariant forall k :: 0 <= k < j ==>
                    data[k].raw == raw.tableData[k] && data[k].group == this
                    && data[k].table == Resolve(tables, raw.tableData[k].tableId)
        invariant Distinct(data) && forall k :: 0 <= k < j ==> fresh(data[k])
        invariant forall x :: x in tables.rows.Values ==>
                    x.groups == old(x.groups) + Linked(data, EntryTable, x)
      {
        var g := new ItemTableGroupData(row.tableData[j], this, tables);
        forall x | x in tables.rows.Values
          ensures old(x.groups) + Linked(data + [g], EntryTable, x)
               == old(x.groups) + Linked(data, EntryTable, x) + if EntryTable(g) == Some(x) then [g] else []
        {
          LinkedSnoc(old(x.groups), data, g, EntryTable, x);
        }
        DistinctSnoc(data, g);
        data := data + [g];
      }
    }

    /** The rows `made` so far: all different, each in the state its
        callback left it in, holding the children `kids` records for it. */
    static ghost predicate Made(made: seq<ItemTableGroupSetting>, es: seq<Entry<GroupRow>>, tables: Table<JsKey, ItemTableSetting>,
                                kids: seq<seq<ItemTableGroupData>>)
      reads made
    {
      && |made| == |kids| <= |es| && Distinct(made)
      && forall j :: 0 <= j < |made| ==> made[j].Initial(es[j].value, tables) && made[j].data == kids[j]
    }

    static lemma MadeSnoc(made: seq<ItemTableGroupSetting>, es: seq<Entry<GroupRow>>, tables: Table<JsKey, ItemTableSetting>,
                          kids: seq<seq<ItemTableGroupData>>, r: ItemTableGroupSetting)
      requires Made(made, es, tables, kids) && |made| < |es|
      requires r !in made && r.Initial(es[|made|].value, tables)
      ensures Made(made + [r], es, tables, kids + [r.data])
    {
      DistinctConcat(made, [r]);
    }

    /** The row callback of `ItemTableGroupSetting.load`, entry by entry;
        `kids[i]` are the entries of group i. */
    static method CreateAll(es: seq<Entry<GroupRow>>, tables: Table<JsKey, ItemTableSetting>)
      returns (made: seq<ItemTableGroupSetting>, ghost kids: seq<seq<ItemTableGroupData>>)
      modifies tables.rows.Values`groups
      ensures |made| == |es| && |kids| == |es| && Distinct(made)
      ensures forall i :: 0 <= i < |made| ==>
                fresh(made[i]) && made[i].Initial(es[i].value, tables) && made[i].data == kids[i]
      ensures forall x :: x in tables.rows.Values ==>
                x.groups == old(x.groups) + Linked(Flatten(kids), EntryTable, x)
      ensures forall j, c :: 0 <= j < |kids| && c in kids[j] ==> fresh(c)
    {
      made, kids := [], [];
      for i := 0 to |es|
        invariant |made| == i && Made(made, es, tables, kids)
        invariant forall j :: 0 <= j < i ==> fresh(made[j])
        invariant forall j, c :: 0 <= j < |kids| && c in kids[j] ==> fresh(c)
        invariant forall x :: x in tables.rows.Values ==>
                    x.groups == old(x.groups) + Linked(Flatten(kids), EntryTable, x)
      {
        var s := new ItemTableGroupSetting(es[i].value, tables);
        MadeSnoc(made, es, tables, kids, s);
        ghost var sd := s.data;
        FlattenSnoc(kids, sd);
        forall x | x in tables.rows.Values
          ensures old(x.groups) + Linked(Flatten(kids) + sd, EntryTable, x)
               == old(x.groups) + Linked(Flatten(kids), EntryTable, x) + Linked(sd, EntryTable, x)
        {
          LinkedExtend(old(x.groups), Flatten(kids), sd, EntryTable, x);
        }
        kids := kids + [sd];
        made := made + [s];
      }
    }

    /** The children of all created rows: no child twice, each owned by
        a created row, and every row's children among them. This only
        applies `Tables.FlattenDistinct` to this row type's owner. */
    static lemma Owners(es: seq<Entry<GroupRow>>, tables: Table<JsKey, ItemTableSetting>,
                        made: seq<ItemTableGroupSetting>, kids: seq<seq<ItemTableGroupData>>)
      requires |made| == |es| && |kids| == |es|
      requires forall i :: 0 <= i < |made| ==> made[i].Initial(es[i].value, tables) && made[i].data == kids[i]
      requires Distinct(made)
      ensures Distinct(Flatten(kids)) && forall g :: g in Flatten(kids) ==> g.group in made
      ensures forall i, g :: 0 <= i < |made| && g in made[i].data ==> g in Flatten(kids)
    {
      FlattenDistinct(made, kids, EntryGroupOf);
    }

    /** `ItemTableGroupSetting.load` (docs/main.js:85-91). `entries` are
        the entries of every created group, group by group. */
    static method Load(doc: string, resp: Response<GroupRow>, tables: Table<JsKey, ItemTableSetting>)
      returns (t: Table<JsKey, ItemTableGroupSetting>, ghost rows: seq<ItemTableGroupSetting>,
               ghost kids: seq<seq<ItemTableGroupData>>, ghost entries: seq<ItemTableGroupData>)
      modifies tables.rows.Values`groups
      ensures |rows| == |Entries(resp)| && Distinct(rows)
      ensures t == Build(JsKeys(doc, Entries(resp)), rows)
      ensures forall i :: 0 <= i < |rows| ==> fresh(rows[i]) && rows[i].Initial(Entries(resp)[i].value, tables)
      ensures |kids| == |rows| && (forall i :: 0 <= i < |rows| ==> rows[i].data == kids[i]) && entries == Flatten(kids)
      ensures Distinct(entries) && forall g :: g in entries ==> g.group in rows
      ensures forall i, g :: 0 <= i < |rows| && g in rows[i].data ==> g in entries
      ensures forall x :: x in tables.rows.Values ==>
                x.groups == old(x.groups) + Linked(entries, EntryTable, x)
      ensures forall c :: c in entries ==> fresh(c)
    {
      var made;
      made, kids := CreateAll(Entries(resp), tables);
      Owners(Entries(resp), tables, made, kids);
      t := LoadRaw(doc, resp, made);
      rows, entries := made, Flatten(kids);
      forall c | c in entries ensures fresh(c) {
        FlattenMember(kids, c);
      }
    }
  }

  function GroupRaw(x: ItemTableGroupSetting): GroupRow {
    x.raw
  }

  // ---------------------------------------------------------------------
  // Pick params and pick points

  class CommonPickParamData {
    const raw: CommonPickRow
    const drop: Option<ItemTableGroupSetting>
    var params: seq<PickParamData>

    /** The state loading leaves a param in: built from `row`, its drop
        resolved against `groups`, no pick param pointing at it yet. */
    ghost predicate Initial(row: CommonPickRow, groups: Table<JsKey, ItemTableGroupSetting>)
      reads this
    {
      raw == row && drop == Resolve(groups, row.dropTableGroupId) && params == []
    }

    /** The row callback of `CommonPickParamData.load` (docs/main.js:99-106):
        resolve `Drop.tableGroupId`; when it resolves, append this param to
        that group's `pick_params`. */
    constructor (row: CommonPickRow, groups: Table<JsKey, ItemTableGroupSetting>)
      modifies groups.rows.Values`pickParams
      ensures Initial(row, groups)
      ensures forall g :: g in groups.rows.Values ==>
                g.pickParams == old(g.pickParams) + if drop == Some(g) then [this] else []
    {
      raw := row;
      drop := Resolve(groups, row.dropTableGroupId);
      params := [];
      new;
      if drop.Some? {
        drop.value.pickParams := drop.value.pickParams + [this];
      }
    }

    static method CreateAll(es: seq<Entry<CommonPickRow>>, groups: Table<JsKey, ItemTableGroupSetting>)
      returns (made: seq<CommonPickParamData>)
      modifies groups.rows.Values`pickParams
      ensures |made| == |es| && Distinct(made)
      ensures forall i :: 0 <= i < |made| ==> fresh(made[i]) && made[i].Initial(es[i].value, groups)
      ensures forall g :: g in groups.rows.Values ==>
                g.pickParams == old(g.pickParams) + Linked(made, CommonDrop, g)
    {
      made := [];
      for i := 0 to |es|
        invariant |made| == i && Distinct(made)
        invariant forall j :: 0 <= j < i ==> fresh(made[j]) && made[j].Initial(es[j].value, groups)
        invariant forall g :: g in groups.rows.Values ==>
                    g.pickParams == old(g.pickParams) + Linked(made, CommonDrop, g)
      {
        var c := new CommonPickParamData(es[i].value, groups);
        forall g | g in groups.rows.Values
          ensures old(g.pickParams) + Linked(made + [c], CommonDrop, g)
               == old(g.pickParams) + Linked(made, CommonDrop, g) + if CommonDrop(c) == Some(g) then [c] else []
        {
          LinkedSnoc(old(g.pickParams), made, c, CommonDrop, g);
        }
        DistinctSnoc(made, c);
        made := made + [c];
      }
    }

    /** `CommonPickParamData.load` (docs/main.js:98-107), used for both the
        common and the fishing params. */
    static method Load(doc: string, resp: Response<CommonPickRow>, groups: Table<JsKey, ItemTableGroupSetting>)
      returns (t: Table<JsKey, CommonPickParamData>, ghost rows: seq<CommonPickParamData>)
      modifies groups.rows.Values`pickParams
      ensures |rows| == |Entries(resp)| && Distinct(rows)
      ensures t == Build(JsKeys(doc, Entries(resp)), rows)
      ensures forall i :: 0 <= i < |rows| ==> fresh(rows[i]) && rows[i].Initial(Entries(resp)[i].value, groups)
      ensures forall g :: g in groups.rows.Values ==>
                g.pickParams == old(g.pickParams) + Linked(rows, CommonDrop, g)
    {
      var made := CreateAll(Entries(resp), groups);
      t := LoadRaw(doc, resp, made);
      rows := made;
    }
  }

  function CommonRaw(x: CommonPickParamData): CommonPickRow {
    x.raw
  }

  function CommonDrop(c: CommonPickParamData): Option<ItemTableGroupSetting> {
    c.drop
  }

  class VegetableParamData {
    const raw: VegetableRow
    var params: seq<PickParamData>

    /** The row callback of `VegetableParamData.load` (docs/main.js:116-119):
        no drop is resolved. */
    constructor (row: VegetableRow)
      ensures raw == row && params == []
    {
      raw := row;
      params := [];
    }

    static method CreateAll(es: seq<Entry<VegetableRow>>) returns (made: seq<VegetableParamData>)
      ensures |made| == |es| && Distinct(made)
      ensures forall i :: 0 <= i < |made| ==> fresh(made[i]) && made[i].raw == es[i].value && made[i].params == []
    {
      made := [];
      for i := 0 to |es|
        invariant |made| == i && Distinct(made)
        invariant forall j :: 0 <= j < i ==> fresh(made[j]) && made[j].raw == es[j].value && made[j].params == []
      {
        var v := new VegetableParamData(es[i].value);
        DistinctSnoc(made, v);
        made := made + [v];
      }
    }

    /** `VegetableParamData.load` (docs/main.js:115-120): the drop groups
        are passed in but no reference is resolved against them, and
        nothing outside the new params changes. */
    static method Load(doc: string, resp: Response<VegetableRow>, groups: Table<JsKey, ItemTableGroupSetting>)
      returns (t: Table<JsKey, VegetableParamData>, ghost rows: seq<VegetableParamData>)
      ensures |rows| == |Entries(resp)| && Distinct(rows)
      ensures t == Build(JsKeys(doc, Entries(resp)), rows)
      ensures forall i :: 0 <= i < |rows| ==>
                fresh(rows[i]) && rows[i].raw == Entries(resp)[i].value && rows[i].params == []
    {
      var made := CreateAll(Entries(resp));
      t := LoadRaw(doc, resp, made);
      rows := made;
    }
  }

  function VegetableRaw(x: VegetableParamData): VegetableRow {
    x.raw
  }

  class PickParamData {
    const raw: PickParamRow
    const common: Option<CommonPickParamData>
    const fishing: Option<CommonPickParamData>
    const vegetable: Option<VegetableParamData>
    var groups: seq<PickPointGroupData>

    /** The state loading leaves a pick param in: built from `row`, its
        three references resolved, in no pick-point group yet. */
    ghost predicate Initial(row: PickParamRow, commons: Table<JsKey, CommonPickParamData>,
                            fishings: Table<JsKey, CommonPickParamData>,
                            vegetables: Table<JsKey, VegetableParamData>)
      reads this
    {
      && raw == row && groups == []
      && common == Resolve(commons, row.commonPickDataId)
      && fishing == Resolve(fishings, row.fishingParamDataId)
      && vegetable == Resolve(vegetables, row.vegetableParamDataId)
    }

    /** The row callback of `PickParamData.load` (docs/main.js:128-143).
        The third push is guarded by `fishing` and goes to `fishing.params`
        again, so a resolved fishing param receives this param twice and
        the vegetable param never receives it. */
    constructor (row: PickParamRow, commons: Table<JsKey, CommonPickParamData>,
                 fishings: Table<JsKey, CommonPickParamData>,
                 vegetables: Table<JsKey, VegetableParamData>)
      modifies set c | c in Drops(commons, fishings) :: c`params
      ensures Initial(row, commons, fishings, vegetables)
      ensures forall c :: c in Drops(commons, fishings) ==>
                c.params == old(c.params) + Pushes(this, c)
    {
      raw := row;
      common := Resolve(commons, row.commonPickDataId);
      fishing := Resolve(fishings, row.fishingParamDataId);
      vegetable := Resolve(vegetables, row.vegetableParamDataId);
      groups := [];
      new;
      if common.Some? {
        common.value.params := common.value.params + [this];
      }
      if fishing.Some? {
        fishing.value.params := fishing.value.params + [this];
      }
      if fishing.Some? {
        fishing.value.params := fishing.value.params + [this];
      }
    }

    static method CreateAll(es: seq<Entry<PickParamRow>>, commons: Table<JsKey, CommonPickParamData>,
                            fishings: Table<JsKey, CommonPickParamData>,
                            vegetables: Table<JsKey, VegetableParamData>)
      returns (made: seq<PickParamData>)
      modifies set c | c in Drops(commons, fishings) :: c`params
      ensures |made| == |es| && Distinct(made)
      ensures forall i :: 0 <= i < |made| ==>
                fresh(made[i]) && made[i].Initial(es[i].value, commons, fishings, vegetables)
      ensures forall c :: c in Drops(commons, fishings) ==>
                c.params == old(c.params) + PickAppends(made, c)
      ensures forall v :: v in vegetables.rows.Values ==> v.params == old(v.params)
    {
      made := [];
      for i := 0 to |es|
        invariant |made| == i && Distinct(made)
        invariant forall j :: 0 <= j < i ==>
                    fresh(made[j]) && made[j].Initial(es[j].value, commons, fishings, vegetables)
        invariant forall c :: c in Drops(commons, fishings) ==>
                    c.params == old(c.params) + PickAppends(made, c)
        invariant forall v :: v in vegetables.rows.Values ==> v.params == old(v.params)
      {
        var p := new PickParamData(es[i].value, commons, fishings, vegetables);
        forall c | c in Drops(commons, fishings)
          ensures old(c.params) + PickAppends(made + [p], c) == old(c.params) + PickAppends(made, c) + Pushes(p, c)
        {
          PickAppendsSnoc(old(c.params), made, p, c);
        }
        DistinctSnoc(made, p);
        made := made + [p];
      }
    }

    /** `PickParamData.load` (docs/main.js:127-144). */
    static method Load(doc: string, resp: Response<PickParamRow>, commons: Table<JsKey, CommonPickParamData>,
                       fishings: Table<JsKey, CommonPickParamData>,
                       vegetables: Table<JsKey, VegetableParamData>)
      returns (t: Table<JsKey, PickParamData>, ghost rows: seq<PickParamData>)
      modifies set c | c in Drops(commons, fishings) :: c`params
      ensures |rows| == |Entries(resp)| && Distinct(rows)
      ensures t == Build(JsKeys(doc, Entries(resp)), rows)
      ensures forall i :: 0 <= i < |rows| ==>
                fresh(rows[i]) && rows[i].Initial(Entries(resp)[i].value, commons, fishings, vegetables)
      ensures forall c :: c in Drops(commons, fishings) ==>
                c.params == old(c.params) + PickAppends(rows, c)
      ensures forall v :: v in vegetables.rows.Values ==> v.params == old(v.params)
    {
      var made := CreateAll(Entries(resp), commons, fishings, vegetables);
      t := LoadRaw(doc, resp, made);
      rows := made;
    }
  }

  function PickRaw(x: PickParamData): PickParamRow {
    x.raw
  }

  /** The common and fishing params a pick param can resolve to. */
  function Drops(commons: Table<JsKey, CommonPickParamData>, fishings: Table<JsKey, CommonPickParamData>)
    : set<CommonPickParamData>
  {
    commons.rows.Values + fishings.rows.Values
  }

  /** What creating `p` appends to `c.params`: `p` once when `c` is its
      common param, then `p` twice more when `c` is its fishing param. */
  function Pushes(p: PickParamData, c: CommonPickParamData): (r: seq<PickParamData>)
    ensures forall q :: q in r ==> q == p
    ensures |r| == (if p.common == Some(c) then 1 else 0) + (if p.fishing == Some(c) then 2 else 0)
  {
    (if p.common == Some(c) then [p] else []) + (if p.fishing == Some(c) then [p, p] else [])
  }

  /** What creating the params `ps`, in order, appends to `c.params`. */
  function PickAppends(ps: seq<PickParamData>, c: CommonPickParamData): seq<PickParamData> {
    if ps == [] then [] else PickAppends(ps[..|ps| - 1], c) + Pushes(ps[|ps| - 1], c)
  }

  lemma PickAppendsSnoc(pre: seq<PickParamData>, ps: seq<PickParamData>, p: PickParamData, c: CommonPickParamData)
    ensures pre + PickAppends(ps + [p], c) == pre + PickAppends(ps, c) + Pushes(p, c)
  {
    assert (ps + [p])[..|ps|] == ps;
  }

  /** How often creating `q` appends `p` to `c.params`. */
  lemma PushesCount(q: PickParamData, c: CommonPickParamData, p: PickParamData)
    ensures multiset(Pushes(q, c))[p] ==
              if p == q then (if p.common == Some(c) then 1 else 0) + (if p.fishing == Some(c) then 2 else 0)
              else 0
  {
    var common: seq<PickParamData> := if q.common == Some(c) then [q] else [];
    var fishing: seq<PickParamData> := if q.fishing == Some(c) then [q, q] else [];
    assert Pushes(q, c) == common + fishing;
    assert multiset(Pushes(q, c)) == multiset(common) + multiset(fishing);
  }

  /** Among params created once each, `c.params` gains a param once for
      being its common param and twice for being its fishing param: the
      double push of docs/main.js:134-141 is already in this revision. */
  lemma {:induction false} PickAppendsCount(ps: seq<PickParamData>, c: CommonPickParamData, p: PickParamData)
    requires Distinct(ps)
    ensures multiset(PickAppends(ps, c))[p] ==
              if p in ps then (if p.common == Some(c) then 1 else 0) + (if p.fishing == Some(c) then 2 else 0)
              else 0
  {
    if ps != [] {
      var n := |ps| - 1;
      DistinctInit(ps);
      PickAppendsCount(ps[..n], c, p);
      PushesCount(ps[n], c, p);
      assert multiset(PickAppends(ps, c)) == multiset(PickAppends(ps[..n], c)) + multiset(Pushes(ps[n], c));
      assert p in ps <==> p in ps[..n] || p == ps[n] by {
        assert ps == ps[..n] + [ps[n]];
      }
    }
  }

  class PickPointGroupData {
    const raw: PointEntryRow
    const group: PickPointGroup
    const param: Option<PickParamData>

    /** docs/main.js:147-154: resolve `paramId`; when it resolves, append
        this entry to that param's `groups`. */
    constructor (row: PointEntryRow, group: PickPointGroup, params: Table<JsKey, PickParamData>)
      modifies params.rows.Values`groups
      ensures raw == row && this.group == group && param == Resolve(params, row.paramId)
      ensures forall x :: x in params.rows.Values ==>
                x.groups == old(x.groups) + if param == Some(x) then [this] else []
    {
      raw := row;
      this.group := group;
      param := Resolve(params, row.paramId);
      new;
      if param.Some? {
        param.value.groups := param.value.groups + [this];
      }
    }
  }

  function EntryParam(g: PickPointGroupData): Option<PickParamData> {
    g.param
  }

  function EntryGroup(g: PickPointGroupData): PickPointGroup {
    g.group
  }

  class PickPointGroup {
    const raw: PointGroupRow
    var data: seq<PickPointGroupData>
    var maps: seq<MapPickPoint>

    /** `data` holds one new entry per element of `groupData`, in order,
        each owned by this group and resolved against `params`. */
    ghost predicate Holds(params: Table<JsKey, PickParamData>)
      reads this`data
    {
      && |data| == |raw.groupData| && Distinct(data)
      && forall j :: 0 <= j < |data| ==>
           data[j].raw == raw.groupData[j] && data[j].group == this
           && data[j].param == Resolve(params, raw.groupData[j].paramId)
    }

    /** The state loading leaves a group in: built from `row`, on no map
        yet. */
    ghost predicate Initial(row: PointGroupRow, params: Table<JsKey, PickParamData>)
      reads this
    {
      raw == row && maps == [] && Holds(params)
    }

    /** `new PickPointGroup(data)` followed by mapping `groupData` to
        entries (docs/main.js:163-164). */
    constructor (row: PointGroupRow, params: Table<JsKey, PickParamData>)
      modifies params.rows.Values`groups
      ensures Initial(row, params)
      ensures forall j :: 0 <= j < |data| ==> fresh(data[j])
      ensures forall x :: x in params.rows.Values ==>
                x.groups == old(x.groups) + Linked(data, EntryParam, x)
    {
      raw := row;
      data, maps := [], [];
      new;
      for j := 0 to |row.groupData|
        invariant |data| == j && maps == []
        invariant forall k :: 0 <= k < j ==>
                    data[k].raw == raw.groupData[k] && data[k].group == this
                    && data[k].param == Resolve(params, raw.groupData[k].paramId)
        invariant Distinct(data) && forall k :: 0 <= k < j ==> fresh(data[k])
        invariant forall x :: x in params.rows.Values ==>
                    x.groups == old(x.groups) + Linked(data, EntryParam, x)
      {
        var g := new PickPointGroupData(row.groupData[j], this, params);
        forall x | x in params.rows.Values
          ensures old(x.groups) + Linked(data + [g], EntryParam, x)
               == old(x.groups) + Linked(data, EntryParam, x) + if EntryParam(g) == Some(x) then [g] else []
        {
          LinkedSnoc(old(x.groups), data, g, EntryParam, x);
        }
        DistinctSnoc(data, g);
        data := data + [g];
      }
    }

    /** The rows `made` so far: all different, each in the state its
        callback left it in, holding the children `kids` records for it. */
    static ghost predicate Made(made: seq<PickPointGroup>, es: seq<Entry<PointGroupRow>>, params: Table<JsKey, PickParamData>,
                                kids: seq<seq<PickPointGroupData>>)
      reads made
    {
      && |made| == |kids| <= |es| && Distinct(made)
      && forall j :: 0 <= j < |made| ==> made[j].Initial(es[j].value, params) && made[j].data == kids[j]
    }

    static lemma MadeSnoc(made: seq<PickPointGroup>, es: seq<Entry<PointGroupRow>>, params: Table<JsKey, PickParamData>,
                          kids: seq<seq<PickPointGroupData>>, r: PickPointGroup)
      requires Made(made, es, params, kids) && |made| < |es|
      requires r !in made && r.Initial(es[|made|].value, params)
      ensures Made(made + [r], es, params, kids + [r.data])
    {
      DistinctConcat(made, [r]);
    }

    /** The row callback of `PickPointGroup.load`, entry by entry;
        `kids[i]` are the entries of group i. */
    static method CreateAll(es: seq<Entry<PointGroupRow>>, params: Table<JsKey, PickParamData>)
      returns (made: seq<PickPointGroup>, ghost kids: seq<seq<PickPointGroupData>>)
      modifies params.rows.Values`groups
      ensures |made| == |es| && |kids| == |es| && Distinct(made)
      ensures forall i :: 0 <= i < |made| ==>
                fresh(made[i]) && made[i].Initial(es[i].value, params) && made[i].data == kids[i]
      ensures forall x :: x in params.rows.Values ==>
                x.groups == old(x.groups) + Linked(Flatten(kids), EntryParam, x)
      ensures forall j, c :: 0 <= j < |kids| && c in kids[j] ==> fresh(c)
    {
      made, kids := [], [];
      for i := 0 to |es|
        invariant |made| == i && Made(made, es, params, kids)
        invariant forall j :: 0 <= j < i ==> fresh(made[j])
        invariant forall j, c :: 0 <= j < |kids| && c in kids[j] ==> fresh(c)
        invariant forall x :: x in params.rows.Values ==>
                    x.groups == old(x.groups) + Linked(Flatten(kids), EntryParam, x)
      {
        var s := new PickPointGroup(es[i].value, params);
        MadeSnoc(made, es, params, kids, s);
        ghost var sd := s.data;
        FlattenSnoc(kids, sd);
        forall x | x in params.rows.Values
          ensures old(x.groups) + Linked(Flatten(kids) + sd, EntryParam, x)
               == old(x.groups) + Linked(Flatten(kids), EntryParam, x) + Linked(sd, EntryParam, x)
        {
          LinkedExtend(old(x.groups), Flatten(kids), sd, EntryParam, x);
        }
        kids := kids + [sd];
        made := made + [s];
      }
    }

    /** The children of all created rows: no child twice, each owned by
        a created row, and every row's children among them. This only
        applies `Tables.FlattenDistinct` to this row type's owner. */
    static lemma Owners(es: seq<Entry<PointGroupRow>>, params: Table<JsKey, PickParamData>,
                        made: seq<PickPointGroup>, kids: seq<seq<PickPointGroupData>>)
      requires |made| == |es| && |kids| == |es|
      requires forall i :: 0 <= i < |made| ==> made[i].Initial(es[i].value, params) && made[i].data == kids[i]
      requires Distinct(made)
      ensures Distinct(Flatten(kids)) && forall c :: c in Flatten(kids) ==> EntryGroup(c) in made
      ensures forall i, c :: 0 <= i < |made| && c in made[i].data ==> c in Flatten(kids)
    {
      FlattenDistinct(made, kids, EntryGroup);
    }

    /** `PickPointGroup.load` (docs/main.js:161-167). `entries` are the
        entries of every created group, group by group. */
    static method Load(doc: string, resp: Response<PointGroupRow>, params: Table<JsKey, PickParamData>)
      returns (t: Table<JsKey, PickPointGroup>, ghost rows: seq<PickPointGroup>,
               ghost kids: seq<seq<PickPointGroupData>>, ghost entries: seq<PickPointGroupData>)
      modifies params.rows.Values`groups
      ensures |rows| == |Entries(resp)| && Distinct(rows)
      ensures t == Build(JsKeys(doc, Entries(resp)), rows)
      ensures forall i :: 0 <= i < |rows| ==> fresh(rows[i]) && rows[i].Initial(Entries(resp)[i].value, params)
      ensures |kids| == |rows| && (forall i :: 0 <= i < |rows| ==> rows[i].data == kids[i]) && entries == Flatten(kids)
      ensures Distinct(entries) && forall g :: g in entries ==> g.group in rows
      ensures forall i, g :: 0 <= i < |rows| && g in rows[i].data ==> g in entries
      ensures forall x :: x in params.rows.Values ==>
                x.groups == old(x.groups) + Linked(entries, EntryParam, x)
      ensures forall c :: c in entries ==> fresh(c)
    {
      var made;
      made, kids := CreateAll(Entries(resp), params);
      Owners(Entries(resp), params, made, kids);
      t := LoadRaw(doc, resp, made);
      rows, entries := made, Flatten(kids);
      forall c | c in entries ensures fresh(c) {
        FlattenMember(kids, c);
      }
    }
  }

  function PointGroupRaw(x: PickPointGroup): PointGroupRow {
    x.raw
  }

  class MapPickPoint {
    const raw: PickPointRow
    const mapData: MapData
    const group: Option<PickPointGroup>

    /** The row callback of `MapPickPoint.load` (docs/main.js:171-179):
        record the map, resolve `GroupID`; when it resolves, append this
        point to that group's `maps`. */
    constructor (row: PickPointRow, mapData: MapData, groups: Table<JsKey, PickPointGroup>)
      modifies groups.rows.Values`maps
      ensures raw == row && this.mapData == mapData && group == Resolve(groups, row.groupId)
      ensures forall g :: g in groups.rows.Values ==>
                g.maps == old(g.maps) + if group == Some(g) then [this] else []
    {
      raw := row;
      this.mapData := mapData;
      group := Resolve(groups, row.groupId);
      new;
      if group.Some? {
        group.value.maps := group.value.maps + [this];
      }
    }

    static method CreateAll(es: seq<Entry<PickPointRow>>, mapData: MapData, groups: Table<JsKey, PickPointGroup>)
      returns (made: seq<MapPickPoint>)
      modifies groups.rows.Values`maps
      ensures |made| == |es| && Distinct(made)
      ensures forall i :: 0 <= i < |made| ==>
                fresh(made[i]) && made[i].raw == es[i].value && made[i].mapData == mapData
                && made[i].group == Resolve(groups, made[i].raw.groupId)
      ensures forall g :: g in groups.rows.Values ==>
                g.maps == old(g.maps) + Linked(made, PointGroup, g)
    {
      made := [];
      for i := 0 to |es|
        invariant |made| == i && Distinct(made)
        invariant forall j :: 0 <= j < i ==>
                    fresh(made[j]) && made[j].raw == es[j].value && made[j].mapData == mapData
                    && made[j].group == Resolve(groups, made[j].raw.groupId)
        invariant forall g :: g in groups.rows.Values ==>
                    g.maps == old(g.maps) + Linked(made, PointGroup, g)
      {
        var p := new MapPickPoint(es[i].value, mapData, groups);
        forall g | g in groups.rows.Values
          ensures old(g.maps) + Linked(made + [p], PointGroup, g)
               == old(g.maps) + Linked(made, PointGroup, g) + if PointGroup(p) == Some(g) then [p] else []
        {
          LinkedSnoc(old(g.maps), made, p, PointGroup, g);
        }
        DistinctSnoc(made, p);
        made := made + [p];
      }
    }

    /** `MapPickPoint.load` (docs/main.js:170-180). */
    static method Load(doc: string, resp: Response<PickPointRow>, mapData: MapData,
                       groups: Table<JsKey, PickPointGroup>)
      returns (t: Table<JsKey, MapPickPoint>, ghost rows: seq<MapPickPoint>)
      modifies groups.rows.Values`maps
      ensures |rows| == |Entries(resp)| && Distinct(rows)
      ensures t == Build(JsKeys(doc, Entries(resp)), rows)
      ensures forall i :: 0 <= i < |rows| ==>
                fresh(rows[i]) && rows[i].raw == Entries(resp)[i].value && rows[i].mapData == mapData
                && rows[i].group == Resolve(groups, rows[i].raw.groupId)
      ensures forall g :: g in groups.rows.Values ==>
                g.maps == old(g.maps) + Linked(rows, PointGroup, g)
    {
      var made := CreateAll(Entries(resp), mapData, groups);
      t := LoadRaw(doc, resp, made);
      rows := made;
    }
  }

  function PointRaw(x: MapPickPoint): PickPointRow {
    x.raw
  }

  function PointGroup(p: MapPickPoint): Option<PickPointGroup> {
    p.group
  }

  // ---------------------------------------------------------------------
  // Maps

  /** `t` is loaded from `m`'s own pick-point document, at the path built
      from its `mapId`: it holds the points `pts`, one per entry and made
      from it, each on `m` and resolved against `groups`. */
  ghost predicate PointsOf(m: MapData, t: Table<JsKey, MapPickPoint>, files: string -> Response<PickPointRow>,
                           groups: Table<JsKey, PickPointGroup>, pts: seq<MapPickPoint>)
  {
    var doc := Entities.PickPointPath(m.raw.mapId);
    var es := Entries(files(doc));
    && |pts| == |es| && t == Build(JsKeys(doc, es), pts)
    && forall k :: 0 <= k < |pts| ==>
         pts[k].raw == es[k].value && pts[k].mapData == m && pts[k].group == Resolve(groups, es[k].value.groupId)
  }

  /** What a map's pick-point table shows of its document: every key of
      the document, each holding a point made from the key's last entry,
      on `m` and resolved against `groups`. */
  ghost predicate PointsHeld(m: MapData, t: Table<JsKey, MapPickPoint>, files: string -> Response<PickPointRow>,
                             groups: Table<JsKey, PickPointGroup>)
  {
    && KeysFrom(t, Entities.PickPointPath(m.raw.mapId), files(Entities.PickPointPath(m.raw.mapId)), PointRaw)
    && forall p :: p in t.rows.Values ==> p.mapData == m && p.group == Resolve(groups, p.raw.groupId)
  }

  /** The table a map's pick-point load builds shows its document. */
  lemma PointsOfHeld(m: MapData, t: Table<JsKey, MapPickPoint>, files: string -> Response<PickPointRow>,
                     groups: Table<JsKey, PickPointGroup>, pts: seq<MapPickPoint>)
    requires PointsOf(m, t, files, groups, pts)
    ensures PointsHeld(m, t, files, groups)
  {
    var doc := Entities.PickPointPath(m.raw.mapId);
    KeysBuiltFrom(doc, files(doc), pts, PointRaw);
    forall p | p in t.rows.Values ensures p.mapData == m && p.group == Resolve(groups, p.raw.groupId) {
      var k :| 0 <= k < |pts| && pts[k] == p;
    }
  }

  /** What the loop over the map entries has loaded so far: the maps
      `made`, all different, each built from its entry and holding the
      pick points `kids`; `points` are those points, map by map, all
      different and each on one of the maps. */
  ghost predicate Progress(made: seq<MapData>, es: seq<Entry<MapRow>>, names: Table<JsKey, TextData>,
                           files: string -> Response<PickPointRow>, groups: Table<JsKey, PickPointGroup>,
                           kids: seq<seq<MapPickPoint>>, points: seq<MapPickPoint>)
    reads made
  {
    && |made| == |kids| <= |es| && Distinct(made)
    && (forall j :: 0 <= j < |made| ==> made[j].Initial(es[j].value, names, files, groups, kids[j]))
    && points == Flatten(kids) && Distinct(points) && forall p :: p in points ==> p.mapData in made
  }

  /** A new map made from the next entry, with its own points, extends the
      progress of the loop by one turn. */
  lemma ProgressSnoc(made: seq<MapData>, es: seq<Entry<MapRow>>, names: Table<JsKey, TextData>,
                     files: string -> Response<PickPointRow>, groups: Table<JsKey, PickPointGroup>,
                     kids: seq<seq<MapPickPoint>>, points: seq<MapPickPoint>, m: MapData, pts: seq<MapPickPoint>)
    requires |made| < |es| && Progress(made, es, names, files, groups, kids, points)
    requires m !in made && m.Initial(es[|made|].value, names, files, groups, pts)
    requires Distinct(pts) && forall k :: 0 <= k < |pts| ==> pts[k].mapData == m
    ensures Progress(made + [m], es, names, files, groups, kids + [pts], points + pts)
  {
    DistinctConcat(made, [m]);
    DistinctConcat(points, pts);
    FlattenSnoc(kids, pts);
  }

  class MapData {
    const raw: MapRow
    const name: Option<TextData>
    var pickPoints: Table<JsKey, MapPickPoint>

    /** The state the row callback leaves a map in: named, with the pick
        points `pts` loaded from the map's own document. */
    ghost predicate Initial(row: MapRow, names: Table<JsKey, TextData>, files: string -> Response<PickPointRow>,
                            groups: Table<JsKey, PickPointGroup>, pts: seq<MapPickPoint>)
      reads this`pickPoints
    {
      raw == row && name == Resolve(names, row.mapName) && PointsOf(this, pickPoints, files, groups, pts)
    }

    constructor (row: MapRow, names: Table<JsKey, TextData>)
      ensures raw == row && name == Resolve(names, row.mapName)
    {
      raw := row;
      name := Resolve(names, row.mapName);
      pickPoints := Empty();
    }

    /** The load of the row callback of `MapData.load` (docs/main.js:187),
        on a map already made and named: its pick points `points`, from
        the path built from `mapId`, each owned by this map. */
    method Fill(files: string -> Response<PickPointRow>, groups: Table<JsKey, PickPointGroup>)
      returns (ghost points: seq<MapPickPoint>)
      modifies this`pickPoints
      modifies groups.rows.Values`maps
      ensures PointsOf(this, pickPoints, files, groups, points)
      ensures Distinct(points) && forall k :: 0 <= k < |points| ==> points[k].mapData == this
      ensures forall g :: g in groups.rows.Values ==> g.maps == old(g.maps) + Linked(points, PointGroup, g)
    {
      var doc := Entities.PickPointPath(raw.mapId);
      pickPoints, points := MapPickPoint.Load(doc, files(doc), this, groups);
    }

    /** One turn of the loop that loads the maps' pick points, together
        with what it does to the groups' lists: each is its value `before`
        the loop followed by the links of every point loaded so far. */
    method Turn(files: string -> Response<PickPointRow>, groups: Table<JsKey, PickPointGroup>,
                ghost before: map<PickPointGroup, seq<MapPickPoint>>, ghost points: seq<MapPickPoint>)
      returns (ghost pts: seq<MapPickPoint>)
      requires forall g :: g in groups.rows.Values ==> g in before && g.maps == before[g] + Linked(points, PointGroup, g)
      modifies this`pickPoints
      modifies groups.rows.Values`maps
      ensures PointsOf(this, pickPoints, files, groups, pts)
      ensures Distinct(pts) && forall k :: 0 <= k < |pts| ==> pts[k].mapData == this
      ensures forall g :: g in groups.rows.Values ==> g.maps == before[g] + Linked(points + pts, PointGroup, g)
    {
      pts := Fill(files, groups);
      forall g | g in groups.rows.Values
        ensures before[g] + Linked(points + pts, PointGroup, g)
             == before[g] + Linked(points, PointGroup, g) + Linked(pts, PointGroup, g)
      {
        LinkedExtend(before[g], points, pts, PointGroup, g);
      }
    }

    /** The first half of `loadData`'s loop over the map entries: the
        callback's `new MapData(data)` and name lookup (docs/main.js:185-186)
        for every entry, in entry order; the load that follows reads and
        changes nothing these depend on, so it can come after. */
    static method MakeAll(es: seq<Entry<MapRow>>, names: Table<JsKey, TextData>) returns (made: seq<MapData>)
      ensures |made| == |es| && Distinct(made)
      ensures forall i :: 0 <= i < |made| ==>
                fresh(made[i]) && made[i].raw == es[i].value && made[i].name == Resolve(names, es[i].value.mapName)
    {
      made := [];
      for i := 0 to |es|
        invariant |made| == i && Distinct(made)
        invariant forall j :: 0 <= j < i ==>
                    fresh(made[j]) && made[j].raw == es[j].value && made[j].name == Resolve(names, es[j].value.mapName)
      {
        var m := new MapData(es[i].value, names);
        DistinctConcat(made, [m]);
        made := made + [m];
      }
    }

    /** `loadData`'s loop over the map entries: one new map per entry, in
        entry order, named, then filled map by map; `kids[i]` are the pick
        points of map `i`, and `points` those of every map, map by map,
        each created once. */
    static method CreateAll(es: seq<Entry<MapRow>>, names: Table<JsKey, TextData>,
                            files: string -> Response<PickPointRow>, groups: Table<JsKey, PickPointGroup>)
      returns (made: seq<MapData>, ghost kids: seq<seq<MapPickPoint>>, ghost points: seq<MapPickPoint>)
      modifies groups.rows.Values`maps
      ensures |made| == |es| && |kids| == |es| && Distinct(made)
      ensures forall i :: 0 <= i < |made| ==> fresh(made[i]) && made[i].Initial(es[i].value, names, files, groups, kids[i])
      ensures points == Flatten(kids) && Distinct(points) && forall p :: p in points ==> p.mapData in made
      ensures forall g :: g in groups.rows.Values ==> g.maps == old(g.maps) + Linked(points, PointGroup, g)
    {
      ghost var before := map g | g in groups.rows.Values :: g.maps;
      made := MakeAll(es, names);
      kids, points := [], [];
      assert made[..0] == [];
      for i := 0 to |es|
        invariant Progress(made[..i], es, names, files, groups, kids, points)
        invariant forall g :: g in groups.rows.Values ==> g in before && g.maps == before[g] + Linked(points, PointGroup, g)
      {
        kids, points := Step(made, i, es, names, files, groups, before, kids, points);
      }
      assert made[..|es|] == made;
    }

    /** One turn of the fill loop: map `i`, already made and named, loads
        its pick points, and the progress of the loop grows by that map. */
    static method Step(made: seq<MapData>, i: nat, es: seq<Entry<MapRow>>, names: Table<JsKey, TextData>,
                       files: string -> Response<PickPointRow>, groups: Table<JsKey, PickPointGroup>,
                       ghost before: map<PickPointGroup, seq<MapPickPoint>>, ghost kids: seq<seq<MapPickPoint>>,
                       ghost points: seq<MapPickPoint>)
      returns (ghost kids': seq<seq<MapPickPoint>>, ghost points': seq<MapPickPoint>)
      requires i < |made| == |es| && Distinct(made)
      requires made[i].raw == es[i].value && made[i].name == Resolve(names, es[i].value.mapName)
      requires Progress(made[..i], es, names, files, groups, kids, points)
      requires forall g :: g in groups.rows.Values ==> g in before && g.maps == before[g] + Linked(points, PointGroup, g)
      modifies made[i]
      modifies groups.rows.Values`maps
      ensures Progress(made[..i + 1], es, names, files, groups, kids', points')
      ensures forall g :: g in groups.rows.Values ==> g.maps == before[g] + Linked(points', PointGroup, g)
    {
      DistinctTake(made, i);
      ghost var pts := made[i].Turn(files, groups, before, points);
      ProgressSnoc(made[..i], es, names, files, groups, kids, points, made[i], pts);
      kids', points' := kids + [pts], points + pts;
    }

    /** `MapData.load` (docs/main.js:183-190): one new map per entry, in
        the table built from the entries' keys; `kids[i]` are the pick
        points map `i` created, and `points` those of every map, map by
        map. */
    static method Load(doc: string, resp: Response<MapRow>, names: Table<JsKey, TextData>,
                       files: string -> Response<PickPointRow>, groups: Table<JsKey, PickPointGroup>)
      returns (t: Table<JsKey, MapData>, ghost rows: seq<MapData>, ghost kids: seq<seq<MapPickPoint>>,
               ghost points: seq<MapPickPoint>)
      modifies groups.rows.Values`maps
      ensures |rows| == |Entries(resp)| && |kids| == |rows| && Distinct(rows)
      ensures t == Build(JsKeys(doc, Entries(resp)), rows)
      ensures forall i :: 0 <= i < |rows| ==>
                fresh(rows[i]) && rows[i].Initial(Entries(resp)[i].value, names, files, groups, kids[i])
      ensures points == Flatten(kids) && Distinct(points) && forall p :: p in points ==> p.mapData in rows
      ensures forall g :: g in groups.rows.Values ==> g.maps == old(g.maps) + Linked(points, PointGroup, g)
    {
      var made;
      made, kids, points := CreateAll(Entries(resp), names, files, groups);
      t := LoadRaw(doc, resp, made);
      rows := made;
    }
  }

  function MapRaw(x: MapData): MapRow {
    x.raw
  }

  // ---------------------------------------------------------------------
  // What a loaded table resolved, through fields set once

  /** The text documents have the non-empty arrays the older
      `TextData.load` reads element 0 of. */
  ghost predicate TextsWellFormed(src: Orchestrator.Sources) {
    && HasText(src.texts(Orchestrator.ITEM_NOUN_PATH), "textInfo")
    && HasText(src.texts(Orchestrator.ITEM_TEXT_PATH), "textInfo")
    && HasText(src.texts(Orchestrator.MAP_NOUN_PATH), "nounInfo")
  }

  ghost predicate Texts(t: Table<JsKey, TextData>, textField: string, langField: string) {
    forall x :: x in t.rows.Values ==>
      && textField in x.raw.fields && |x.raw.fields[textField]| > 0
      && x.text == TextOf(x.raw, textField, langField)
  }

  ghost predicate ItemsNamed(t: Table<JsKey, ItemData>, names: Table<JsKey, TextData>, descs: Table<JsKey, TextData>) {
    forall x :: x in t.rows.Values ==> x.name == Resolve(names, x.raw.nameId) && x.desc == Resolve(descs, x.raw.descId)
  }

  ghost predicate DropsResolved(t: Table<JsKey, CommonPickParamData>, groups: Table<JsKey, ItemTableGroupSetting>) {
    forall c :: c in t.rows.Values ==> c.drop == Resolve(groups, c.raw.dropTableGroupId)
  }

  ghost predicate PicksResolved(t: Table<JsKey, PickParamData>, commons: Table<JsKey, CommonPickParamData>,
                                fishings: Table<JsKey, CommonPickParamData>,
                                vegetables: Table<JsKey, VegetableParamData>)
  {
    forall p :: p in t.rows.Values ==>
      && p.common == Resolve(commons, p.raw.commonPickDataId)
      && p.fishing == Resolve(fishings, p.raw.fishingParamDataId)
      && p.vegetable == Resolve(vegetables, p.raw.vegetableParamDataId)
  }

  ghost predicate MapsNamed(t: Table<JsKey, MapData>, names: Table<JsKey, TextData>) {
    forall m :: m in t.rows.Values ==> m.name == Resolve(names, m.raw.mapName)
  }

  // ---------------------------------------------------------------------
  // Item categories

  /** Table `tabs[j]` is the one loaded from the item document of category
      `categories[j]`, its items named from `names` and `descs`. */
  ghost predicate CategoriesFrom(tabs: seq<Table<JsKey, ItemData>>, categories: seq<string>,
                                 src: Orchestrator.Sources, names: Table<JsKey, TextData>,
                                 descs: Table<JsKey, TextData>)
    decreases |tabs|
  {
    && |tabs| <= |categories|
    && (tabs == []
        || (&& CategoriesFrom(tabs[..|tabs| - 1], categories, src, names, descs)
            && CategoryLoaded(tabs[|tabs| - 1], categories[|tabs| - 1], src, names, descs)))
  }

  /** Table `t` is the one loaded from the item document of category `c`,
      its items named from `names` and `descs`. */
  ghost predicate CategoryLoaded(t: Table<JsKey, ItemData>, c: string, src: Orchestrator.Sources,
                                 names: Table<JsKey, TextData>, descs: Table<JsKey, TextData>)
  {
    KeysFrom(t, c, src.items(c), ItemRaw) && ItemsNamed(t, names, descs)
  }

  lemma CategoriesFromSnoc(tabs: seq<Table<JsKey, ItemData>>, categories: seq<string>, src: Orchestrator.Sources,
                           names: Table<JsKey, TextData>, descs: Table<JsKey, TextData>,
                           items: Table<JsKey, ItemData>)
    requires |tabs| < |categories| && CategoriesFrom(tabs, categories, src, names, descs)
    requires KeysFrom(items, categories[|tabs|], src.items(categories[|tabs|]), ItemRaw)
    requires ItemsNamed(items, names, descs)
    ensures CategoriesFrom(tabs + [items], categories, src, names, descs)
  {
    var next := tabs + [items];
    assert next[..|next| - 1] == tabs && next[|next| - 1] == items;
    assert CategoryLoaded(items, categories[|tabs|], src, names, descs);
  }

  lemma {:induction false} CategoriesFromAt(tabs: seq<Table<JsKey, ItemData>>, categories: seq<string>,
                                            src: Orchestrator.Sources, names: Table<JsKey, TextData>,
                                            descs: Table<JsKey, TextData>, j: nat)
    requires CategoriesFrom(tabs, categories, src, names, descs) && j < |tabs|
    ensures j < |categories|
    ensures KeysFrom(tabs[j], categories[j], src.items(categories[j]), ItemRaw) && ItemsNamed(tabs[j], names, descs)
    decreases |tabs|
  {
    if j < |tabs| - 1 {
      CategoriesFromAt(tabs[..|tabs| - 1], categories, src, names, descs, j);
    }
  }

  /** What one turn of the category loop does to the tables loaded so
      far, their merge and the map from categories to tables. */
  lemma CategoryNext(tabs: seq<Table<JsKey, ItemData>>, categories: seq<string>,
                     src: Orchestrator.Sources, names: Table<JsKey, TextData>, descs: Table<JsKey, TextData>,
                     items: Table<JsKey, ItemData>, all: Table<JsKey, ItemData>,
                     cats: Table<string, Table<JsKey, ItemData>>)
    requires |tabs| < |categories| && CategoriesFrom(tabs, categories, src, names, descs)
    requires forall j :: 0 <= j < |tabs| ==> tabs[j].Valid()
    requires all == MergeAll(tabs) && cats == Build(categories[..|tabs|], tabs)
    requires KeysFrom(items, categories[|tabs|], src.items(categories[|tabs|]), ItemRaw)
    requires ItemsNamed(items, names, descs)
    ensures CategoriesFrom(tabs + [items], categories, src, names, descs)
    ensures MergeAll(tabs + [items]) == Merge(all, items)
    ensures Build(categories[..|tabs| + 1], tabs + [items]) == cats.Set(categories[|tabs|], items)
  {
    var i := |tabs|;
    CategoriesFromSnoc(tabs, categories, src, names, descs, items);
    MergeAllSnoc(tabs, items);
    BuildSnoc(categories[..i], tabs, categories[i], items);
    Orchestrator.TakeSnoc(categories, i);
  }

  /** The tables loaded so far stay well formed and within the items made. */
  lemma WithinSnoc(tabs: seq<Table<JsKey, ItemData>>, made: set<ItemData>, items: Table<JsKey, ItemData>)
    requires forall j :: 0 <= j < |tabs| ==> tabs[j].Valid() && tabs[j].rows.Values <= made
    requires items.Valid()
    ensures forall j :: 0 <= j < |tabs| + 1 ==>
      (tabs + [items])[j].Valid() && (tabs + [items])[j].rows.Values <= made + items.rows.Values
  {
    forall j | 0 <= j < |tabs| + 1
      ensures (tabs + [items])[j].Valid() && (tabs + [items])[j].rows.Values <= made + items.rows.Values
    {
      if j < |tabs| {
        assert (tabs + [items])[j] == tabs[j];
      }
    }
  }

  /** `cats` maps exactly the categories `categories`, in order, each to
      the table loaded from its own document with the names and
      descriptions given, and `all` is their merge in that order. */
  ghost predicate CategoriesLoaded(cats: Table<string, Table<JsKey, ItemData>>, all: Table<JsKey, ItemData>,
                                   categories: seq<string>, src: Orchestrator.Sources,
                                   names: Table<JsKey, TextData>, descs: Table<JsKey, TextData>)
  {
    && cats.Valid() && cats.order == categories
    && (forall c :: c in categories ==>
          && c in cats.rows && KeysFrom(cats.rows[c], c, src.items(c), ItemRaw)
          && ItemsNamed(cats.rows[c], names, descs))
    && Orchestrator.MergedCategories(cats, all, categories)
  }

  /** Each category of the loop is mapped to the table loaded for it. */
  lemma CategoriesMapped(tabs: seq<Table<JsKey, ItemData>>, categories: seq<string>,
                         cats: Table<string, Table<JsKey, ItemData>>, src: Orchestrator.Sources,
                         names: Table<JsKey, TextData>, descs: Table<JsKey, TextData>)
    requires |tabs| == |categories| && Distinct(categories)
    requires CategoriesFrom(tabs, categories, src, names, descs)
    requires cats == Build(categories, tabs)
    ensures forall j :: 0 <= j < |tabs| ==> categories[j] in cats.rows && cats.rows[categories[j]] == tabs[j]
    ensures forall c :: c in categories ==>
      c in cats.rows && KeysFrom(cats.rows[c], c, src.items(c), ItemRaw) && ItemsNamed(cats.rows[c], names, descs)
  {
    forall j | 0 <= j < |tabs|
      ensures categories[j] in cats.rows && cats.rows[categories[j]] == tabs[j]
      ensures KeysFrom(tabs[j], categories[j], src.items(categories[j]), ItemRaw) && ItemsNamed(tabs[j], names, descs)
    {
      BuildLastWins(categories, tabs, j);
      CategoriesFromAt(tabs, categories, src, names, descs, j);
    }
  }

  /** The loop over the categories leaves `item_categories` and
      `all_items` as `CategoriesLoaded` says. */
  lemma CategoriesBuilt(tabs: seq<Table<JsKey, ItemData>>, categories: seq<string>,
                        cats: Table<string, Table<JsKey, ItemData>>, all: Table<JsKey, ItemData>,
                        src: Orchestrator.Sources, names: Table<JsKey, TextData>, descs: Table<JsKey, TextData>)
    requires |tabs| == |categories| && Distinct(categories)
    requires CategoriesFrom(tabs, categories, src, names, descs)
    requires forall j :: 0 <= j < |tabs| ==> tabs[j].Valid()
    requires cats == Build(categories, tabs) && all == MergeAll(tabs)
    ensures CategoriesLoaded(cats, all, categories, src, names, descs)
  {
    BuildKeys(categories, tabs);
    BuildDistinctOrder(categories, tabs);
    CategoriesMapped(tabs, categories, cats, src, names, descs);
    Orchestrator.CategoriesMerged(tabs, categories, cats, all);
  }

  /** A structured key of a loaded table is an object of the table's own
      document. */
  lemma ObjectKeyOwn<V, T>(t: Table<JsKey, T>, doc: string, resp: Response<V>, raw: T -> V, key: JsKey)
    requires KeysFrom(t, doc, resp, raw) && key in t.rows && key.JsObject?
    ensures key.doc == doc
  {
    var es := Entries(resp);
    JsKeysAt(doc, es);
    KeyOrderHas(JsKeys(doc, es), key);
    var k :| 0 <= k < |es| && JsKeys(doc, es)[k] == key;
  }

  /** An entry with a structured key keeps its own row in a loaded table. */
  lemma ObjectKeyLoaded<V, T>(t: Table<JsKey, T>, doc: string, resp: Response<V>, raw: T -> V, i: nat)
    requires KeysFrom(t, doc, resp, raw) && i < |Entries(resp)| && !IsString(Entries(resp)[i].key)
    ensures JsObject(doc, i) in t.rows && raw(t.rows[JsObject(doc, i)]) == Entries(resp)[i].value
  {
    var es := Entries(resp);
    JsKeysAt(doc, es);
    KeyOrderHas(JsKeys(doc, es), JsObject(doc, i));
    assert JsObject(doc, i) in t.order;
    LastValueAt(JsKeys(doc, es), es, i);
  }

  /** An entry with a structured key, in the item document of any
      category, keeps its own item in `all_items`: the objects parsed from
      two documents are never the same key, so no later category
      overwrites it. */
  lemma CategoryObjectKept(cats: Table<string, Table<JsKey, ItemData>>, all: Table<JsKey, ItemData>,
                           categories: seq<string>, src: Orchestrator.Sources, names: Table<JsKey, TextData>,
                           descs: Table<JsKey, TextData>, c: string, i: nat)
    requires CategoriesLoaded(cats, all, categories, src, names, descs)
    requires c in categories && i < |Entries(src.items(c))| && !IsString(Entries(src.items(c))[i].key)
    ensures JsObject(c, i) in all.rows && all.rows[JsObject(c, i)].raw == Entries(src.items(c))[i].value
  {
    var key := JsObject(c, i);
    ObjectKeyLoaded(cats.rows[c], c, src.items(c), ItemRaw, i);
    Orchestrator.AllItemsLastWins(cats, all, categories, key);
    var j :| && 0 <= j < |categories| && key in cats.rows[categories[j]].rows
             && all.rows[key] == cats.rows[categories[j]].rows[key];
    ObjectKeyOwn(cats.rows[categories[j]], categories[j], src.items(categories[j]), ItemRaw, key);
  }

  // ---------------------------------------------------------------------
  // The tables `GameData.load` fills, phase by phase

  /** The item tables: names, descriptions, categories and their merge. */
  ghost predicate ItemsLoaded(src: Orchestrator.Sources, lang: string, names: Table<JsKey, TextData>,
                              descs: Table<JsKey, TextData>, all: Table<JsKey, ItemData>,
                              cats: Table<string, Table<JsKey, ItemData>>)
  {
    && KeysFrom(names, Orchestrator.ITEM_NOUN_PATH, src.texts(Orchestrator.ITEM_NOUN_PATH), TextRaw)
    && Texts(names, "textInfo", Orchestrator.NounField(lang))
    && KeysFrom(descs, Orchestrator.ITEM_TEXT_PATH, src.texts(Orchestrator.ITEM_TEXT_PATH), TextRaw)
    && Texts(descs, "textInfo", Orchestrator.TextField(lang))
    && CategoriesLoaded(cats, all, Orchestrator.ITEM_CATEGORIES, src, names, descs)
  }

  /** Every table's `data` holds a detail per row of its `tableData`,
      resolved against `items`. */
  ghost predicate TablesHold(t: Table<JsKey, ItemTableSetting>, items: Table<JsKey, ItemData>)
    reads t.rows.Values`data
  {
    forall x :: x in t.rows.Values ==> x.Holds(items)
  }

  /** Every group's `data` holds an entry per row of its `tableData`,
      resolved against `tables`. */
  ghost predicate GroupsHold(t: Table<JsKey, ItemTableGroupSetting>, tables: Table<JsKey, ItemTableSetting>)
    reads t.rows.Values`data
  {
    forall g :: g in t.rows.Values ==> g.Holds(tables)
  }

  /** Every pick-point group's `data` holds an entry per row of its
      `groupData`, resolved against `params`. */
  ghost predicate PointGroupsHold(t: Table<JsKey, PickPointGroup>, params: Table<JsKey, PickParamData>)
    reads t.rows.Values`data
  {
    forall g :: g in t.rows.Values ==> g.Holds(params)
  }

  /** The battle tables, their groups and the pick-point groups hold the
      entries made when they were loaded. */
  ghost predicate DropsHeld(all: Table<JsKey, ItemData>, tables: Table<JsKey, ItemTableSetting>,
                            groups: Table<JsKey, ItemTableGroupSetting>, picks: Table<JsKey, PickParamData>,
                            points: Table<JsKey, PickPointGroup>)
    reads tables.rows.Values`data, groups.rows.Values`data, points.rows.Values`data
  {
    TablesHold(tables, all) && GroupsHold(groups, tables) && PointGroupsHold(points, picks)
  }

  /** The drop tables and pick tables, each resolved against the ones
      before it, the battle tables, their groups and the pick-point groups
      each holding its entries. */
  ghost predicate DropsLoaded(src: Orchestrator.Sources, all: Table<JsKey, ItemData>,
                              tables: Table<JsKey, ItemTableSetting>, groups: Table<JsKey, ItemTableGroupSetting>,
                              commons: Table<JsKey, CommonPickParamData>,
                              fishings: Table<JsKey, CommonPickParamData>,
                              vegetables: Table<JsKey, VegetableParamData>, picks: Table<JsKey, PickParamData>,
                              points: Table<JsKey, PickPointGroup>)
    reads tables.rows.Values`data, groups.rows.Values`data, points.rows.Values`data
  {
    && KeysFrom(tables, Orchestrator.BATTLE_TABLE_PATH, src.itemTables(Orchestrator.BATTLE_TABLE_PATH), TableRaw)
    && KeysFrom(groups, Orchestrator.BATTLE_GROUP_PATH, src.itemGroups(Orchestrator.BATTLE_GROUP_PATH), GroupRaw)
    && KeysFrom(commons, Orchestrator.COMMON_PICK_PATH, src.commonPicks(Orchestrator.COMMON_PICK_PATH), CommonRaw)
    && DropsResolved(commons, groups)
    && KeysFrom(fishings, Orchestrator.FISHING_PATH, src.commonPicks(Orchestrator.FISHING_PATH), CommonRaw)
    && DropsResolved(fishings, groups)
    && KeysFrom(vegetables, Orchestrator.VEGETABLE_PATH, src.vegetables(Orchestrator.VEGETABLE_PATH), VegetableRaw)
    && KeysFrom(picks, Orchestrator.PICK_PARAM_PATH, src.pickParams(Orchestrator.PICK_PARAM_PATH), PickRaw)
    && PicksResolved(picks, commons, fishings, vegetables)
    && KeysFrom(points, Orchestrator.PICK_GROUP_PATH, src.pointGroups(Orchestrator.PICK_GROUP_PATH), PointGroupRaw)
    && DropsHeld(all, tables, groups, picks, points)
  }

  /** The map names and the maps, each named and holding the pick points
      of its own document: nothing loads after the maps in this revision,
      so their pick-point tables are final. */
  ghost predicate MapsLoaded(src: Orchestrator.Sources, lang: string, points: Table<JsKey, PickPointGroup>,
                             names: Table<JsKey, TextData>, maps: Table<JsKey, MapData>)
    reads set m | m in maps.rows.Values :: m
  {
    && KeysFrom(names, Orchestrator.MAP_NOUN_PATH, src.texts(Orchestrator.MAP_NOUN_PATH), TextRaw)
    && Texts(names, "nounInfo", Orchestrator.NounField(lang))
    && KeysFrom(maps, Orchestrator.MAP_PATH, src.maps(Orchestrator.MAP_PATH), MapRaw) && MapsNamed(maps, names)
    && forall m :: m in maps.rows.Values ==> PointsHeld(m, m.pickPoints, src.mapFiles.pickPoints, points)
  }

  class GameData {
    var itemNames: Table<JsKey, TextData>
    var itemDescs: Table<JsKey, TextData>
    var allItems: Table<JsKey, ItemData>
    var itemCategories: Table<string, Table<JsKey, ItemData>>
    var battleItemTables: Table<JsKey, ItemTableSetting>
    var battleItemGroups: Table<JsKey, ItemTableGroupSetting>
    var commonPickParams: Table<JsKey, CommonPickParamData>
    var fishingParams: Table<JsKey, CommonPickParamData>
    var vegetableParams: Table<JsKey, VegetableParamData>
    var pickParams: Table<JsKey, PickParamData>
    var pickGroups: Table<JsKey, PickPointGroup>
    var mapNames: Table<JsKey, TextData>
    var mapData: Table<JsKey, MapData>

    /** Every table loaded, from the documents `src` gives, in the
        language `lang`. */
    ghost predicate Loaded(src: Orchestrator.Sources, lang: string)
      reads *
    {
      && ItemsLoaded(src, lang, itemNames, itemDescs, allItems, itemCategories)
      && DropsLoaded(src, allItems, battleItemTables, battleItemGroups, commonPickParams, fishingParams, vegetableParams,
                     pickParams, pickGroups)
      && MapsLoaded(src, lang, pickGroups, mapNames, mapData)
    }

    /** The tables `GameData.load` assigns, each to its field. */
    constructor Of(names: Table<JsKey, TextData>, descs: Table<JsKey, TextData>, all: Table<JsKey, ItemData>,
                   cats: Table<string, Table<JsKey, ItemData>>, tables: Table<JsKey, ItemTableSetting>,
                   groups: Table<JsKey, ItemTableGroupSetting>, commons: Table<JsKey, CommonPickParamData>,
                   fishings: Table<JsKey, CommonPickParamData>, vegetables: Table<JsKey, VegetableParamData>,
                   picks: Table<JsKey, PickParamData>, points: Table<JsKey, PickPointGroup>,
                   mapNames: Table<JsKey, TextData>, maps: Table<JsKey, MapData>)
      ensures itemNames == names && itemDescs == descs && allItems == all && itemCategories == cats
      ensures battleItemTables == tables && battleItemGroups == groups
      ensures commonPickParams == commons && fishingParams == fishings && vegetableParams == vegetables
      ensures pickParams == picks && pickGroups == points && this.mapNames == mapNames && mapData == maps
    {
      itemNames, itemDescs, allItems, itemCategories := names, descs, all, cats;
      battleItemTables, battleItemGroups := tables, groups;
      commonPickParams, fishingParams, vegetableParams, pickParams, pickGroups :=
        commons, fishings, vegetables, picks, points;
      this.mapNames, mapData := mapNames, maps;
    }

    /** `GameData.load` (docs/main.js:206-227): every table loaded in the
        source's order, then held by a new `GameData`. */
    static method Load(src: Orchestrator.Sources, lang: string) returns (data: GameData)
      requires TextsWellFormed(src)
      ensures fresh(data) && data.Loaded(src, lang)
    {
      var names, descs, all, cats, tables, groups, commons, fishings, vegetables, picks, points, mapNames, maps :=
        LoadAll(src, lang);
      data := new GameData.Of(names, descs, all, cats, tables, groups, commons, fishings, vegetables, picks, points,
                              mapNames, maps);
    }
  }

  /** The loaders of `GameData.load` (docs/main.js:208-225), in order, each
      given the tables loaded before it. */
  method LoadAll(src: Orchestrator.Sources, lang: string)
    returns (names: Table<JsKey, TextData>, descs: Table<JsKey, TextData>, all: Table<JsKey, ItemData>,
             cats: Table<string, Table<JsKey, ItemData>>, tables: Table<JsKey, ItemTableSetting>,
             groups: Table<JsKey, ItemTableGroupSetting>, commons: Table<JsKey, CommonPickParamData>,
             fishings: Table<JsKey, CommonPickParamData>, vegetables: Table<JsKey, VegetableParamData>,
             picks: Table<JsKey, PickParamData>, points: Table<JsKey, PickPointGroup>,
             mapNames: Table<JsKey, TextData>, maps: Table<JsKey, MapData>)
    requires TextsWellFormed(src)
    ensures ItemsLoaded(src, lang, names, descs, all, cats)
    ensures DropsLoaded(src, all, tables, groups, commons, fishings, vegetables, picks, points)
    ensures MapsLoaded(src, lang, points, mapNames, maps)
  {
    names, descs, all, cats := LoadItems(src, lang);
    tables, groups, commons, fishings, vegetables, picks, points := LoadDrops(src, all);
    mapNames, maps := LoadMaps(src, lang, points, all, tables, groups, picks);
  }

  /** docs/main.js:208-216: the item names and descriptions, then the
      items of every category of `ITEM_CATEGORIES`. */
  method LoadItems(src: Orchestrator.Sources, lang: string)
    returns (names: Table<JsKey, TextData>, descs: Table<JsKey, TextData>, all: Table<JsKey, ItemData>,
             cats: Table<string, Table<JsKey, ItemData>>)
    requires HasText(src.texts(Orchestrator.ITEM_NOUN_PATH), "textInfo")
    requires HasText(src.texts(Orchestrator.ITEM_TEXT_PATH), "textInfo")
    ensures ItemsLoaded(src, lang, names, descs, all, cats)
    ensures forall x :: x in all.rows.Values ==> fresh(x)
  {
    names := LoadTexts(Orchestrator.ITEM_NOUN_PATH, src.texts(Orchestrator.ITEM_NOUN_PATH),
                       "textInfo", Orchestrator.NounField(lang));
    descs := LoadTexts(Orchestrator.ITEM_TEXT_PATH, src.texts(Orchestrator.ITEM_TEXT_PATH),
                       "textInfo", Orchestrator.TextField(lang));
    Orchestrator.CategoriesDistinct();
    all, cats := LoadCategories(src, Orchestrator.ITEM_CATEGORIES, names, descs);
  }

  /** docs/main.js:212-216: each category's items, merged into
      `all_items` and recorded under the category in `item_categories`. */
  method LoadCategories(src: Orchestrator.Sources, categories: seq<string>, names: Table<JsKey, TextData>,
                        descs: Table<JsKey, TextData>)
    returns (all: Table<JsKey, ItemData>, cats: Table<string, Table<JsKey, ItemData>>)
    requires Distinct(categories)
    ensures CategoriesLoaded(cats, all, categories, src, names, descs)
    ensures forall x :: x in all.rows.Values ==> fresh(x)
  {
    all, cats := Empty(), Empty();
    ghost var tabs: seq<Table<JsKey, ItemData>> := [];
    ghost var made: set<ItemData> := {};
    for i := 0 to |categories|
      invariant |tabs| == i && CategoriesFrom(tabs, categories, src, names, descs)
      invariant forall j :: 0 <= j < i ==> tabs[j].Valid() && tabs[j].rows.Values <= made
      invariant forall x :: x in made ==> fresh(x)
      invariant all == MergeAll(tabs) && cats == Build(categories[..i], tabs)
    {
      all, cats, tabs, made := CategoryStep(src, categories, i, names, descs, all, cats, tabs, made);
    }
    assert categories[..|categories|] == categories;
    CategoriesBuilt(tabs, categories, cats, all, src, names, descs);
    MergeAllWithin(tabs, made);
  }

  /** One turn of the category loop (docs/main.js:213-215). */
  method CategoryStep(src: Orchestrator.Sources, categories: seq<string>, i: nat, names: Table<JsKey, TextData>,
                      descs: Table<JsKey, TextData>, all: Table<JsKey, ItemData>,
                      cats: Table<string, Table<JsKey, ItemData>>, ghost tabs: seq<Table<JsKey, ItemData>>,
                      ghost made: set<ItemData>)
    returns (all': Table<JsKey, ItemData>, cats': Table<string, Table<JsKey, ItemData>>,
             ghost tabs': seq<Table<JsKey, ItemData>>, ghost made': set<ItemData>)
    requires i == |tabs| < |categories| && CategoriesFrom(tabs, categories, src, names, descs)
    requires forall j :: 0 <= j < i ==> tabs[j].Valid() && tabs[j].rows.Values <= made
    requires all == MergeAll(tabs) && cats == Build(categories[..i], tabs)
    ensures |tabs'| == i + 1 && CategoriesFrom(tabs', categories, src, names, descs)
    ensures forall j :: 0 <= j < i + 1 ==> tabs'[j].Valid() && tabs'[j].rows.Values <= made'
    ensures forall x :: x in made' ==> x in made || fresh(x)
    ensures all' == MergeAll(tabs') && cats' == Build(categories[..i + 1], tabs')
  {
    var items := LoadCategory(categories[i], src.items(categories[i]), names, descs);
    CategoryNext(tabs, categories, src, names, descs, items, all, cats);
    WithinSnoc(tabs, made, items);
    all' := MergeInto(all, items);
    cats' := cats.Set(categories[i], items);
    tabs', made' := tabs + [items], made + items.rows.Values;
  }

  /** docs/main.js:217-223: the battle item tables against `all_items`,
      their groups against the tables, the common, fishing and vegetable
      params against the groups, the pick params against those three and
      the pick-point groups against the pick params. */
  method LoadDrops(src: Orchestrator.Sources, all: Table<JsKey, ItemData>)
    returns (tables: Table<JsKey, ItemTableSetting>, groups: Table<JsKey, ItemTableGroupSetting>,
             commons: Table<JsKey, CommonPickParamData>, fishings: Table<JsKey, CommonPickParamData>,
             vegetables: Table<JsKey, VegetableParamData>, picks: Table<JsKey, PickParamData>,
             points: Table<JsKey, PickPointGroup>)
    modifies all.rows.Values`tables
    ensures DropsLoaded(src, all, tables, groups, commons, fishings, vegetables, picks, points)
    ensures forall g :: g in points.rows.Values ==> fresh(g)
  {
    tables, groups := LoadBattleDrops(src, all);
    commons, fishings, vegetables := LoadGatherDrops(src, all, tables, groups);
    picks, points := LoadPickDrops(src, all, tables, groups, commons, fishings, vegetables);
  }

  /** docs/main.js:217-218: the battle item tables against `all_items`,
      then their groups against the tables. */
  method LoadBattleDrops(src: Orchestrator.Sources, all: Table<JsKey, ItemData>)
    returns (tables: Table<JsKey, ItemTableSetting>, groups: Table<JsKey, ItemTableGroupSetting>)
    modifies all.rows.Values`tables
    ensures KeysFrom(tables, Orchestrator.BATTLE_TABLE_PATH, src.itemTables(Orchestrator.BATTLE_TABLE_PATH), TableRaw)
    ensures TablesHold(tables, all)
    ensures KeysFrom(groups, Orchestrator.BATTLE_GROUP_PATH, src.itemGroups(Orchestrator.BATTLE_GROUP_PATH), GroupRaw)
    ensures GroupsHold(groups, tables)
    ensures forall g :: g in groups.rows.Values ==> fresh(g)
  {
    tables := LoadTables(Orchestrator.BATTLE_TABLE_PATH, src.itemTables(Orchestrator.BATTLE_TABLE_PATH), all);
    label Tables:
    groups := LoadGroups(Orchestrator.BATTLE_GROUP_PATH, src.itemGroups(Orchestrator.BATTLE_GROUP_PATH), tables);
    forall x | x in tables.rows.Values ensures x.Holds(all) {
      assert old@Tables(x.Holds(all));
    }
  }

  /** docs/main.js:219-221: the common, fishing and vegetable params
      against the groups; the battle tables keep what they hold. */
  method LoadGatherDrops(src: Orchestrator.Sources, ghost all: Table<JsKey, ItemData>,
                         ghost tables: Table<JsKey, ItemTableSetting>, groups: Table<JsKey, ItemTableGroupSetting>)
    returns (commons: Table<JsKey, CommonPickParamData>, fishings: Table<JsKey, CommonPickParamData>,
             vegetables: Table<JsKey, VegetableParamData>)
    requires TablesHold(tables, all) && GroupsHold(groups, tables)
    modifies groups.rows.Values`pickParams
    ensures KeysFrom(commons, Orchestrator.COMMON_PICK_PATH, src.commonPicks(Orchestrator.COMMON_PICK_PATH), CommonRaw)
    ensures DropsResolved(commons, groups)
    ensures KeysFrom(fishings, Orchestrator.FISHING_PATH, src.commonPicks(Orchestrator.FISHING_PATH), CommonRaw)
    ensures DropsResolved(fishings, groups)
    ensures KeysFrom(vegetables, Orchestrator.VEGETABLE_PATH, src.vegetables(Orchestrator.VEGETABLE_PATH), VegetableRaw)
    ensures TablesHold(tables, all) && GroupsHold(groups, tables)
    ensures forall c :: c in Drops(commons, fishings) ==> fresh(c)
  {
    commons := LoadCommons(Orchestrator.COMMON_PICK_PATH, src.commonPicks(Orchestrator.COMMON_PICK_PATH), groups);
    fishings := LoadCommons(Orchestrator.FISHING_PATH, src.commonPicks(Orchestrator.FISHING_PATH), groups);
    vegetables := LoadVegetables(Orchestrator.VEGETABLE_PATH, src.vegetables(Orchestrator.VEGETABLE_PATH), groups);
  }

  /** docs/main.js:222-223: the pick params against the common, fishing
      and vegetable params, then the pick-point groups against the pick
      params; the battle tables keep what they hold. */
  method LoadPickDrops(src: Orchestrator.Sources, ghost all: Table<JsKey, ItemData>,
                       ghost tables: Table<JsKey, ItemTableSetting>, ghost groups: Table<JsKey, ItemTableGroupSetting>,
                       commons: Table<JsKey, CommonPickParamData>, fishings: Table<JsKey, CommonPickParamData>,
                       vegetables: Table<JsKey, VegetableParamData>)
    returns (picks: Table<JsKey, PickParamData>, points: Table<JsKey, PickPointGroup>)
    requires TablesHold(tables, all) && GroupsHold(groups, tables)
    modifies set c | c in Drops(commons, fishings) :: c`params
    ensures KeysFrom(picks, Orchestrator.PICK_PARAM_PATH, src.pickParams(Orchestrator.PICK_PARAM_PATH), PickRaw)
    ensures PicksResolved(picks, commons, fishings, vegetables)
    ensures KeysFrom(points, Orchestrator.PICK_GROUP_PATH, src.pointGroups(Orchestrator.PICK_GROUP_PATH), PointGroupRaw)
    ensures PointGroupsHold(points, picks)
    ensures TablesHold(tables, all) && GroupsHold(groups, tables)
    ensures forall g :: g in points.rows.Values ==> fresh(g)
  {
    picks := LoadPicks(Orchestrator.PICK_PARAM_PATH, src.pickParams(Orchestrator.PICK_PARAM_PATH),
                       commons, fishings, vegetables);
    points := LoadPointGroups(Orchestrator.PICK_GROUP_PATH, src.pointGroups(Orchestrator.PICK_GROUP_PATH), picks);
  }

  /** docs/main.js:224-225: the map names, then the maps against them and
      the pick-point groups; the drop tables keep what they hold. */
  method LoadMaps(src: Orchestrator.Sources, lang: string, points: Table<JsKey, PickPointGroup>,
                  ghost all: Table<JsKey, ItemData>, ghost tables: Table<JsKey, ItemTableSetting>,
                  ghost groups: Table<JsKey, ItemTableGroupSetting>, ghost picks: Table<JsKey, PickParamData>)
    returns (names: Table<JsKey, TextData>, maps: Table<JsKey, MapData>)
    requires HasText(src.texts(Orchestrator.MAP_NOUN_PATH), "nounInfo")
    requires DropsHeld(all, tables, groups, picks, points)
    modifies points.rows.Values`maps
    ensures MapsLoaded(src, lang, points, names, maps)
    ensures DropsHeld(all, tables, groups, picks, points)
  {
    names := LoadTexts(Orchestrator.MAP_NOUN_PATH, src.texts(Orchestrator.MAP_NOUN_PATH),
                       "nounInfo", Orchestrator.NounField(lang));
    maps := LoadMapTable(Orchestrator.MAP_PATH, src.maps(Orchestrator.MAP_PATH),
                         names, src.mapFiles.pickPoints, points);
  }

  // ---------------------------------------------------------------------
  // The loaders as `GameData.load` calls them, each giving the keys of
  // its document and what its rows resolved

  method LoadTexts(doc: string, resp: Response<TextRow>, textField: string, langField: string)
    returns (t: Table<JsKey, TextData>)
    requires HasText(resp, textField)
    ensures KeysFrom(t, doc, resp, TextRaw) && Texts(t, textField, langField)
  {
    ghost var rows;
    t, rows := TextData.Load(doc, resp, textField, langField);
    KeysBuiltFrom(doc, resp, rows, TextRaw);
  }

  method LoadCategory(doc: string, resp: Response<ItemRow>, names: Table<JsKey, TextData>,
                      descs: Table<JsKey, TextData>)
    returns (t: Table<JsKey, ItemData>)
    ensures KeysFrom(t, doc, resp, ItemRaw) && ItemsNamed(t, names, descs)
    ensures forall x :: x in t.rows.Values ==> fresh(x)
  {
    ghost var rows;
    t, rows := ItemData.Load(doc, resp, names, descs);
    KeysBuiltFrom(doc, resp, rows, ItemRaw);
  }

  method LoadTables(doc: string, resp: Response<TableRow>, items: Table<JsKey, ItemData>)
    returns (t: Table<JsKey, ItemTableSetting>)
    modifies items.rows.Values`tables
    ensures KeysFrom(t, doc, resp, TableRaw) && TablesHold(t, items)
    ensures forall x :: x in t.rows.Values ==> fresh(x)
  {
    ghost var rows, kids, details;
    t, rows, kids, details := ItemTableSetting.Load(doc, resp, items);
    KeysBuiltFrom(doc, resp, rows, TableRaw);
  }

  method LoadGroups(doc: string, resp: Response<GroupRow>, tables: Table<JsKey, ItemTableSetting>)
    returns (t: Table<JsKey, ItemTableGroupSetting>)
    modifies tables.rows.Values`groups
    ensures KeysFrom(t, doc, resp, GroupRaw) && GroupsHold(t, tables)
    ensures forall g :: g in t.rows.Values ==> fresh(g)
  {
    ghost var rows, kids, entries;
    t, rows, kids, entries := ItemTableGroupSetting.Load(doc, resp, tables);
    KeysBuiltFrom(doc, resp, rows, GroupRaw);
  }

  method LoadCommons(doc: string, resp: Response<CommonPickRow>, groups: Table<JsKey, ItemTableGroupSetting>)
    returns (t: Table<JsKey, CommonPickParamData>)
    modifies groups.rows.Values`pickParams
    ensures KeysFrom(t, doc, resp, CommonRaw) && DropsResolved(t, groups)
    ensures forall c :: c in t.rows.Values ==> fresh(c)
  {
    ghost var rows;
    t, rows := CommonPickParamData.Load(doc, resp, groups);
    KeysBuiltFrom(doc, resp, rows, CommonRaw);
  }

  method LoadVegetables(doc: string, resp: Response<VegetableRow>, groups: Table<JsKey, ItemTableGroupSetting>)
    returns (t: Table<JsKey, VegetableParamData>)
    ensures KeysFrom(t, doc, resp, VegetableRaw)
  {
    ghost var rows;
    t, rows := VegetableParamData.Load(doc, resp, groups);
    KeysBuiltFrom(doc, resp, rows, VegetableRaw);
  }

  method LoadPicks(doc: string, resp: Response<PickParamRow>, commons: Table<JsKey, CommonPickParamData>,
                   fishings: Table<JsKey, CommonPickParamData>, vegetables: Table<JsKey, VegetableParamData>)
    returns (t: Table<JsKey, PickParamData>)
    modifies set c | c in Drops(commons, fishings) :: c`params
    ensures KeysFrom(t, doc, resp, PickRaw) && PicksResolved(t, commons, fishings, vegetables)
    ensures forall p :: p in t.rows.Values ==> fresh(p)
  {
    ghost var rows;
    t, rows := PickParamData.Load(doc, resp, commons, fishings, vegetables);
    KeysBuiltFrom(doc, resp, rows, PickRaw);
  }

  method LoadPointGroups(doc: string, resp: Response<PointGroupRow>, params: Table<JsKey, PickParamData>)
    returns (t: Table<JsKey, PickPointGroup>)
    modifies params.rows.Values`groups
    ensures KeysFrom(t, doc, resp, PointGroupRaw) && PointGroupsHold(t, params)
    ensures forall g :: g in t.rows.Values ==> fresh(g)
  {
    ghost var rows, kids, entries;
    t, rows, kids, entries := PickPointGroup.Load(doc, resp, params);
    KeysBuiltFrom(doc, resp, rows, PointGroupRaw);
  }

  method LoadMapTable(doc: string, resp: Response<MapRow>, names: Table<JsKey, TextData>,
                      files: string -> Response<PickPointRow>,
                      groups: Table<JsKey, PickPointGroup>)
    returns (t: Table<JsKey, MapData>)
    modifies groups.rows.Values`maps
    ensures KeysFrom(t, doc, resp, MapRaw) && MapsNamed(t, names)
    ensures forall m :: m in t.rows.Values ==> PointsHeld(m, m.pickPoints, files, groups)
  {
    ghost var rows, kids, points;
    t, rows, kids, points := MapData.Load(doc, resp, names, files, groups);
    KeysBuiltFrom(doc, resp, rows, MapRaw);
    forall m | m in t.rows.Values
      ensures m.name == Resolve(names, m.raw.mapName) && PointsHeld(m, m.pickPoints, files, groups)
    {
      var i :| 0 <= i < |rows| && rows[i] == m;
      assert rows[i].Initial(Entries(resp)[i].value, names, files, groups, kids[i]);
      PointsOfHeld(m, m.pickPoints, files, groups, kids[i]);
    }
  }

}
