/**
 * The generic part of the loader: the keyed-map document every table is
 * exported as, the insertion-ordered map a table is loaded into (a JavaScript
 * `Map`), the reference resolver, and the back-reference and merge helpers
 * that the entity loaders share.
 */
module Tables {

  datatype Option<+T> = None | Some(value: T)

  /** The key of one `m_dataMap` entry: a plain string, or a structured key
      object whose `Name` field is its string form. */
  datatype Key = StrKey(str: string) | NamedKey(name: string)

  /** One `{Key, Value}` entry of `m_dataMap`. */
  datatype Entry<V> = Entry(key: Key, value: V)

  /** The `Properties` object of a document; `m_dataMap` may be absent. */
  datatype Properties<V> = Properties(dataMap: Option<seq<Entry<V>>>)

  /** Element 0 of a parsed table document; `Properties` may be absent. */
  datatype Document<V> = Document(properties: Option<Properties<V>>)

  /** A fetched table: `None` when the response is not ok, otherwise the
      parsed document. */
  type Response<V> = Option<Document<V>>

  predicate IsString(k: Key) {
    k.StrKey?
  }

  /** The string a key is stored under: a string key verbatim, any other
      key its `Name` field. */
  function NormalKey(k: Key): string {
    if IsString(k) then k.str else k.name
  }

  /** The entries a loader iterates over: none when the response failed or
      when `Properties.m_dataMap` is missing. */
  function Entries<V>(resp: Response<V>): (es: seq<Entry<V>>)
    ensures resp.None? ==> es == []
    ensures resp.Some? && resp.value.properties.None? ==> es == []
    ensures resp.Some? && resp.value.properties.Some? && resp.value.properties.value.dataMap.None? ==> es == []
    ensures es != [] ==> resp == Some(Document(Some(Properties(Some(es)))))
  {
    match resp
    case None => []
    case Some(Document(None)) => []
    case Some(Document(Some(Properties(None)))) => []
    case Some(Document(Some(Properties(Some(m))))) => m
  }

  /** The keys `loadData` sets, one per entry, in entry order. */
  function NormalKeys<V>(es: seq<Entry<V>>): (ks: seq<string>)
    ensures |ks| == |es|
  {
    if es == [] then [] else NormalKeys(es[..|es| - 1]) + [NormalKey(es[|es| - 1].key)]
  }

  /** Entry `i` is set under its own normalised key. */
  lemma {:induction false} NormalKeysAt<V>(es: seq<Entry<V>>)
    ensures forall i :: 0 <= i < |es| ==> NormalKeys(es)[i] == NormalKey(es[i].key)
  {
    if es != [] {
      NormalKeysAt(es[..|es| - 1]);
      assert forall i :: 0 <= i < |es| - 1 ==> es[..|es| - 1][i] == es[i];
    }
  }

  predicate Distinct<X(==)>(s: seq<X>) {
    forall i, j :: 0 <= i < j < |s| ==> s[i] != s[j]
  }

  /** An insertion-ordered map, as a JavaScript `Map`: `order` lists every
      key once, in the order it was first set. */
  datatype Table<K(==), T> = Table(order: seq<K>, rows: map<K, T>) {

    ghost predicate Valid() {
      && Distinct(order)
      && (forall k :: k in rows ==> k in order)
      && (forall i :: 0 <= i < |order| ==> order[i] in rows)
    }

    function Get(k: K): Option<T> {
      if k in rows then Some(rows[k]) else None
    }

    /** `Map.set`: a new key goes last, an existing key keeps its position
        and takes the new value. */
    function Set(k: K, v: T): (t: Table<K, T>)
      ensures t.rows == rows[k := v]
      ensures Valid() ==> t.Valid()
    {
      Table(if k in rows then order else order + [k], rows[k := v])
    }
  }

  function Empty<K(==), T>(): (t: Table<K, T>)
    ensures t.Valid() && t.rows == map[]
  {
    Table([], map[])
  }

  /** The table that setting `rows[i]` under `keys[i]`, for i in order,
      produces. */
  function Build<K(==), T>(keys: seq<K>, rows: seq<T>): Table<K, T>
    requires |keys| == |rows|
  {
    if keys == [] then Empty()
    else Build(keys[..|keys| - 1], rows[..|rows| - 1]).Set(keys[|keys| - 1], rows[|rows| - 1])
  }

  /** Loading entry i sets its row under its key in the table of the
      entries before it. */
  lemma BuildSnoc<K, T>(keys: seq<K>, rows: seq<T>, k: K, v: T)
    requires |keys| == |rows|
    ensures Build(keys + [k], rows + [v]) == Build(keys, rows).Set(k, v)
  {
    assert (keys + [k])[..|keys|] == keys && (rows + [v])[..|rows|] == rows;
  }

  lemma BuildPrefix<K, T>(keys: seq<K>, rows: seq<T>, i: int)
    requires |keys| == |rows| && 0 <= i < |keys|
    ensures Build(keys[..i + 1], rows[..i + 1]) == Build(keys[..i], rows[..i]).Set(keys[i], rows[i])
  {
    assert keys[..i + 1][..i] == keys[..i] && rows[..i + 1][..i] == rows[..i];
  }

  /** `loadData`'s loop (docs/main.ts:12-15): every constructed row is set
      under its entry's normalised key, in entry order. The rows themselves
      are built by the caller, one per entry, in the same order. */
  method LoadData<V, T>(resp: Response<V>, rows: seq<T>) returns (t: Table<string, T>)
    requires |rows| == |Entries(resp)|
    ensures t == Build(NormalKeys(Entries(resp)), rows)
  {
    var es := Entries(resp);
    ghost var keys := NormalKeys(es);
    NormalKeysAt(es);
    t := Empty();
    for i := 0 to |es|
      invariant t == Build(keys[..i], rows[..i])
    {
      BuildPrefix(keys, rows, i);
      t := t.Set(NormalKey(es[i].key), rows[i]);
    }
    assert keys[..|es|] == keys && rows[..|es|] == rows;
  }

  /** The distinct keys, in the order they first occur. */
  function KeyOrder<K(==)>(keys: seq<K>): seq<K> {
    if keys == [] then []
    else
      var prev := KeyOrder(keys[..|keys| - 1]);
      if keys[|keys| - 1] in prev then prev else prev + [keys[|keys| - 1]]
  }

  /** `t` holds the keys of `resp`'s entries, in the order loading `resp`
      gives them, whatever rows were built for them. */
  ghost predicate LoadedKeys<V, T>(t: Table<string, T>, resp: Response<V>) {
    t.Valid() && t.order == KeyOrder(NormalKeys(Entries(resp)))
  }

  /** `getProperty`: the sentinel `'None'` and a missing key both give
      null; otherwise the table's entry. */
  function GetProperty<T(==)>(m: Table<string, T>, prop: string): (r: Option<T>)
    ensures prop == "None" ==> r.None?
    ensures prop != "None" && prop !in m.rows ==> r.None?
    ensures prop != "None" && prop in m.rows ==> r == Some(m.rows[prop])
    ensures r.Some? ==> r.value in m.rows.Values
  {
    if prop == "None" then None else m.Get(prop)
  }

  // ---------------------------------------------------------------------
  // What a loaded table holds

  /** Entry i is the last one with its key. */
  ghost predicate LastOf<K>(keys: seq<K>, i: int)
    requires 0 <= i < |keys|
  {
    forall j :: i < j < |keys| ==> keys[j] != keys[i]
  }

  /** Entry i is the first one with its key. */
  ghost predicate FirstOf<K>(keys: seq<K>, i: int)
    requires 0 <= i < |keys|
  {
    forall j :: 0 <= j < i ==> keys[j] != keys[i]
  }

  /** The index of `x` in `s`. */
  function Position<X(==)>(s: seq<X>, x: X): (p: nat)
    requires x in s
    ensures p < |s| && s[p] == x
    ensures forall q :: 0 <= q < p ==> s[q] != x
  {
    if s[0] == x then 0 else 1 + Position(s[1..], x)
  }

  lemma {:induction false} PositionAppend<X>(s: seq<X>, y: X, x: X)
    requires x in s
    ensures Position(s + [y], x) == Position(s, x)
  {
    if s[0] != x {
      assert (s + [y])[1..] == s[1..] + [y];
      PositionAppend(s[1..], y, x);
    }
  }

  /** A loaded table is well formed and holds exactly the entries' keys. */
  lemma {:induction false} BuildKeys<K, T>(keys: seq<K>, rows: seq<T>)
    requires |keys| == |rows|
    ensures Build(keys, rows).Valid()
    ensures forall k :: k in Build(keys, rows).rows <==> k in keys
  {
    if keys != [] {
      var n := |keys| - 1;
      BuildKeys(keys[..n], rows[..n]);
      assert keys == keys[..n] + [keys[n]];
    }
  }

  /** A loaded table holds a key exactly when some entry has it. */
  lemma {:induction false} BuildHas<K, T>(keys: seq<K>, rows: seq<T>, k: K)
    requires |keys| == |rows|
    ensures k in Build(keys, rows).rows <==> k in keys
  {
    if keys != [] {
      var n := |keys| - 1;
      BuildHas(keys[..n], rows[..n], k);
      assert keys == keys[..n] + [keys[n]];
    }
  }

  /** The key order of a loaded table depends on the keys alone. */
  lemma {:induction false} BuildOrder<K, T>(keys: seq<K>, rows: seq<T>)
    requires |keys| == |rows|
    ensures Build(keys, rows).Valid() && Build(keys, rows).order == KeyOrder(keys)
  {
    BuildKeys(keys, rows);
    if keys != [] {
      var n := |keys| - 1;
      BuildOrder(keys[..n], rows[..n]);
      BuildKeys(keys[..n], rows[..n]);
    }
  }

  /** A repeated key takes the value of its last entry. */
  lemma {:induction false} BuildLastWins<K, T>(keys: seq<K>, rows: seq<T>, i: int)
    requires |keys| == |rows| && 0 <= i < |keys| && LastOf(keys, i)
    ensures keys[i] in Build(keys, rows).rows
    ensures Build(keys, rows).rows[keys[i]] == rows[i]
  {
    var n := |keys| - 1;
    if i < n {
      BuildLastWins(keys[..n], rows[..n], i);
    }
  }

  /** The key order of a loaded table is the order in which the keys first
      occur among the entries: a repeated key keeps its first position. */
  lemma {:induction false} BuildFirstPosition<K, T>(keys: seq<K>, rows: seq<T>, i: int, j: int)
    requires |keys| == |rows| && 0 <= i < j < |keys| && FirstOf(keys, i) && FirstOf(keys, j)
    ensures keys[i] in Build(keys, rows).order && keys[j] in Build(keys, rows).order
    ensures Position(Build(keys, rows).order, keys[i]) < Position(Build(keys, rows).order, keys[j])
  {
    var n := |keys| - 1;
    var prev := Build(keys[..n], rows[..n]);
    BuildKeys(keys[..n], rows[..n]);
    BuildKeys(keys, rows);
    if j < n {
      BuildFirstPosition(keys[..n], rows[..n], i, j);
      if keys[n] !in prev.rows {
        PositionAppend(prev.order, keys[n], keys[i]);
        PositionAppend(prev.order, keys[n], keys[j]);
      }
    } else {
      assert keys[n] !in keys[..n];
      assert keys[i] in keys[..n];
      assert Build(keys, rows).order == prev.order + [keys[n]];
      PositionAppend(prev.order, keys[n], keys[i]);
      assert Position(prev.order, keys[i]) < |prev.order|;
      assert Position(prev.order + [keys[n]], keys[n]) == |prev.order| by {
        assert keys[n] !in prev.order;
      }
    }
  }

  /** Two distinct sequences with no element in common concatenate to a
      distinct sequence. */
  lemma DistinctConcat<X>(a: seq<X>, b: seq<X>)
    requires Distinct(a) && Distinct(b) && forall x :: x in b ==> x !in a
    ensures Distinct(a + b)
  {
    forall i, j | 0 <= i < j < |a + b| ensures (a + b)[i] != (a + b)[j] {
      if j >= |a| && i < |a| {
        assert (a + b)[j] in b;
      }
    }
  }

  /** Appending an element not already present keeps a sequence distinct. */
  lemma DistinctSnoc<X>(a: seq<X>, x: X)
    requires Distinct(a) && x !in a
    ensures Distinct(a + [x])
  {
  }

  /** Dropping the last element keeps a sequence distinct, and the last
      element is not among the others. */
  lemma DistinctInit<X>(s: seq<X>)
    requires Distinct(s) && s != []
    ensures Distinct(s[..|s| - 1]) && s[|s| - 1] !in s[..|s| - 1]
  {
    var n := |s| - 1;
    forall j | 0 <= j < n ensures s[..n][j] != s[n] {
      assert s[..n][j] == s[j];
    }
  }

  /** The prefix of a distinct sequence grows by its next element, which
      is not already in it. */
  lemma DistinctTake<X>(s: seq<X>, i: int)
    requires Distinct(s) && 0 <= i < |s|
    ensures s[..i + 1] == s[..i] + [s[i]] && s[i] !in s[..i]
  {
    assert s[..i + 1] == s[..i] + [s[i]];
    forall j | 0 <= j < i ensures s[..i][j] != s[i] {
      assert s[..i][j] == s[j];
    }
  }

  /** Distinct keys first occur in their own order. */
  lemma {:induction false} KeyOrderDistinct<K>(keys: seq<K>)
    requires Distinct(keys)
    ensures KeyOrder(keys) == keys
  {
    if keys != [] {
      var n := |keys| - 1;
      DistinctInit(keys);
      KeyOrderDistinct(keys[..n]);
      assert keys == keys[..n] + [keys[n]];
    }
  }

  /** With distinct keys, a loaded table lists them in entry order. */
  lemma BuildDistinctOrder<K, T>(keys: seq<K>, rows: seq<T>)
    requires |keys| == |rows| && Distinct(keys)
    ensures Build(keys, rows).order == keys
  {
    BuildOrder(keys, rows);
    KeyOrderDistinct(keys);
  }

  /** Every value of a loaded table is one of the constructed rows. */
  lemma {:induction false} BuildValues<K, T>(keys: seq<K>, rows: seq<T>)
    requires |keys| == |rows|
    ensures forall v :: v in Build(keys, rows).rows.Values ==> v in rows
  {
    if keys != [] {
      var n := |keys| - 1;
      BuildValues(keys[..n], rows[..n]);
      forall v | v in Build(keys, rows).rows.Values ensures v in rows {
        var k :| k in Build(keys, rows).rows && Build(keys, rows).rows[k] == v;
        if k != keys[n] {
          assert v in Build(keys[..n], rows[..n]).rows.Values;
        }
      }
    }
  }

  /** A loaded table is well formed, keyed in the order its entries'
      keys first occur, and holds only the constructed rows. */
  lemma BuildLoaded<V, T>(resp: Response<V>, rows: seq<T>)
    requires |rows| == |Entries(resp)|
    ensures LoadedKeys(Build(NormalKeys(Entries(resp)), rows), resp)
    ensures forall v :: v in Build(NormalKeys(Entries(resp)), rows).rows.Values ==> v in rows
  {
    BuildOrder(NormalKeys(Entries(resp)), rows);
    BuildValues(NormalKeys(Entries(resp)), rows);
  }

  /** The value of the last of the entries `es`, keyed `keys`, whose key
      is `k`: the entry whose row a loaded table keeps under `k`. */
  function LastValue<K(==), V>(keys: seq<K>, es: seq<Entry<V>>, k: K): (r: Option<V>)
    requires |keys| == |es|
    ensures r.Some? <==> k in keys
  {
    if keys == [] then None
    else if keys[|keys| - 1] == k then Some(es[|es| - 1].value)
    else LastValue(keys[..|keys| - 1], es[..|es| - 1], k)
  }

  /** It is the value of the entry that is the last with its key. */
  lemma {:induction false} LastValueAt<K, V>(keys: seq<K>, es: seq<Entry<V>>, i: int)
    requires |keys| == |es| && 0 <= i < |keys| && LastOf(keys, i)
    ensures LastValue(keys, es, keys[i]) == Some(es[i].value)
  {
    var n := |keys| - 1;
    if i < n {
      LastValueAt(keys[..n], es[..n], i);
    }
  }

  /** `t` holds the keys of `resp`'s entries in loading order, and the row
      under each key was created from the last entry with that key. */
  ghost predicate LoadedFrom<V, T>(t: Table<string, T>, resp: Response<V>, raw: T -> V) {
    && LoadedKeys(t, resp)
    && forall k :: k in t.rows ==> LastValue(NormalKeys(Entries(resp)), Entries(resp), k) == Some(raw(t.rows[k]))
  }

  /** Rows created one per entry, each from its entry's value, are kept
      under each key as the row of the last entry with that key. */
  lemma {:induction false} BuildFrom<K, V, T>(keys: seq<K>, es: seq<Entry<V>>, rows: seq<T>, raw: T -> V)
    requires |keys| == |es| == |rows| && forall i :: 0 <= i < |rows| ==> raw(rows[i]) == es[i].value
    ensures forall k :: k in Build(keys, rows).rows ==> LastValue(keys, es, k) == Some(raw(Build(keys, rows).rows[k]))
  {
    if keys != [] {
      var n := |keys| - 1;
      assert forall i :: 0 <= i < n ==> rows[..n][i] == rows[i] && es[..n][i] == es[i];
      BuildFrom(keys[..n], es[..n], rows[..n], raw);
    }
  }

  /** Loading rows created each from its own entry gives a table
      `LoadedFrom` the document, holding only those rows. */
  lemma BuildLoadedFrom<V, T>(resp: Response<V>, rows: seq<T>, raw: T -> V)
    requires |rows| == |Entries(resp)| && forall i :: 0 <= i < |rows| ==> raw(rows[i]) == Entries(resp)[i].value
    ensures LoadedFrom(Build(NormalKeys(Entries(resp)), rows), resp, raw)
    ensures forall v :: v in Build(NormalKeys(Entries(resp)), rows).rows.Values ==> v in rows
  {
    BuildLoaded(resp, rows);
    BuildFrom(NormalKeys(Entries(resp)), Entries(resp), rows, raw);
  }

  /** The keys first occurring are the keys. */
  lemma {:induction false} KeyOrderHas<K>(keys: seq<K>, k: K)
    ensures k in KeyOrder(keys) <==> k in keys
  {
    if keys != [] {
      var n := |keys| - 1;
      KeyOrderHas(keys[..n], k);
      assert keys == keys[..n] + [keys[n]];
    }
  }

  /** Resolving a key against a table `LoadedFrom` a document gives null
      exactly when the key is `'None'` or no entry has it, and otherwise
      the row created from the last entry with that key. */
  lemma LookupFrom<V, T>(t: Table<string, T>, resp: Response<V>, raw: T -> V, prop: string)
    requires LoadedFrom(t, resp, raw)
    ensures GetProperty(t, prop).Some? <==> prop != "None" && prop in NormalKeys(Entries(resp))
    ensures GetProperty(t, prop).Some? ==>
              LastValue(NormalKeys(Entries(resp)), Entries(resp), prop) == Some(raw(GetProperty(t, prop).value))
  {
    KeyOrderHas(NormalKeys(Entries(resp)), prop);
  }

  /** Resolving a key of a loaded table gives the row of its last entry;
      resolving `'None'` or a key no entry has gives null. */
  lemma ResolveLoaded<T>(keys: seq<string>, rows: seq<T>, i: int)
    requires |keys| == |rows| && 0 <= i < |keys| && LastOf(keys, i) && keys[i] != "None"
    ensures GetProperty(Build(keys, rows), keys[i]) == Some(rows[i])
  {
    BuildLastWins(keys, rows, i);
  }

  lemma ResolveMissing<T>(keys: seq<string>, rows: seq<T>, prop: string)
    requires |keys| == |rows| && (prop == "None" || prop !in keys)
    ensures GetProperty(Build(keys, rows), prop) == None
  {
    BuildKeys(keys, rows);
  }

  /** A failed fetch, a document without `Properties` and one without
      `m_dataMap` all load as the empty table. */
  lemma LoadEmpty<V, T>(resp: Response<V>, rows: seq<T>)
    requires |rows| == |Entries(resp)|
    requires resp.None? || resp.value.properties.None? || resp.value.properties.value.dataMap.None?
    ensures Build(NormalKeys(Entries(resp)), rows) == Table([], map[])
  {
  }

  // ---------------------------------------------------------------------
  // Back-references

  /** The children among `cs`, in order, whose reference `target` points
      at `x`: what a loader appends to `x`'s back-reference list. */
  function Linked<C, T(==)>(cs: seq<C>, target: C -> Option<T>, x: T): (r: seq<C>)
  {
    if cs == [] then []
    else Linked(cs[..|cs| - 1], target, x) + (if target(cs[|cs| - 1]) == Some(x) then [cs[|cs| - 1]] else [])
  }

  /** `Linked` keeps exactly the children that point at `x`. */
  lemma {:induction false} LinkedMembers<C, T>(cs: seq<C>, target: C -> Option<T>, x: T)
    ensures forall c :: c in Linked(cs, target, x) <==> c in cs && target(c) == Some(x)
  {
    if cs != [] {
      var n := |cs| - 1;
      LinkedMembers(cs[..n], target, x);
      assert cs == cs[..n] + [cs[n]];
    }
  }

  /** One more child extends `x`'s list, already holding `pre`, by that
      child exactly when it points at `x`. */
  lemma LinkedSnoc<C, T>(pre: seq<C>, cs: seq<C>, c: C, target: C -> Option<T>, x: T)
    ensures pre + Linked(cs + [c], target, x) == pre + Linked(cs, target, x) + if target(c) == Some(x) then [c] else []
  {
    assert (cs + [c])[..|cs|] == cs;
  }

  lemma {:induction false} LinkedAppend<C, T>(a: seq<C>, b: seq<C>, target: C -> Option<T>, x: T)
    ensures Linked(a + b, target, x) == Linked(a, target, x) + Linked(b, target, x)
  {
    if b == [] {
      assert a + b == a;
    } else {
      var n := |b| - 1;
      assert (a + b)[..|a + b| - 1] == a + b[..n];
      assert (a + b)[|a + b| - 1] == b[n];
      LinkedAppend(a, b[..n], target, x);
    }
  }

  /** More children extend `x`'s list, already holding `pre`, by the new
      children that point at `x`. */
  lemma LinkedExtend<C, T>(pre: seq<C>, a: seq<C>, b: seq<C>, target: C -> Option<T>, x: T)
    ensures pre + Linked(a + b, target, x) == pre + Linked(a, target, x) + Linked(b, target, x)
  {
    LinkedAppend(a, b, target, x);
  }

  /** The children of a sequence of parents, parent by parent. */
  function Flatten<C>(kids: seq<seq<C>>): seq<C> {
    if kids == [] then [] else Flatten(kids[..|kids| - 1]) + kids[|kids| - 1]
  }

  lemma FlattenSnoc<C>(kids: seq<seq<C>>, cs: seq<C>)
    ensures Flatten(kids + [cs]) == Flatten(kids) + cs
  {
    assert (kids + [cs])[..|kids|] == kids;
  }

  /** A child of the flattened sequence is a child of one parent. */
  lemma {:induction false} FlattenMember<C>(kids: seq<seq<C>>, c: C)
    requires c in Flatten(kids)
    ensures exists j :: 0 <= j < |kids| && c in kids[j]
  {
    var n := |kids| - 1;
    if c !in kids[n] {
      FlattenMember(kids[..n], c);
      var j :| 0 <= j < n && c in kids[..n][j];
      assert c in kids[j];
    }
  }

  /** Children that each know their parent, with no child twice among one
      parent's children and no parent twice, are all different; each is a
      child of its own parent. */
  lemma {:induction false} FlattenDistinct<P, C>(ps: seq<P>, kids: seq<seq<C>>, owner: C -> P)
    requires |ps| == |kids| && Distinct(ps)
    requires forall j :: 0 <= j < |kids| ==> Distinct(kids[j])
    requires forall j, k :: 0 <= j < |kids| && 0 <= k < |kids[j]| ==> owner(kids[j][k]) == ps[j]
    ensures Distinct(Flatten(kids))
    ensures forall c :: c in Flatten(kids) ==> owner(c) in ps
    ensures forall j, c :: 0 <= j < |kids| && c in kids[j] ==> c in Flatten(kids)
  {
    if kids != [] {
      var n := |kids| - 1;
      var init, last := kids[..n], kids[n];
      DistinctInit(ps);
      FlattenDistinct(ps[..n], init, owner);
      forall c | c in last ensures c !in Flatten(init) {
        var k :| 0 <= k < |last| && last[k] == c;
        assert owner(c) == ps[n];
      }
      DistinctConcat(Flatten(init), last);
      forall j, c | 0 <= j < |kids| && c in kids[j] ensures c in Flatten(kids) {
        if j < n {
          assert c in init[j];
        }
      }
      forall c | c in Flatten(kids) ensures owner(c) in ps {
        if c !in Flatten(init) {
          var k :| 0 <= k < |last| && last[k] == c;
        }
      }
    }
  }

  /** A child that resolves to `x` is on `x`'s list exactly once, any other
      child not at all, provided no child was created twice. */
  lemma {:induction false} LinkedOnce<C, T>(cs: seq<C>, target: C -> Option<T>, x: T, c: C)
    requires Distinct(cs) && c in cs
    ensures multiset(Linked(cs, target, x))[c] == if target(c) == Some(x) then 1 else 0
  {
    var n := |cs| - 1;
    var init := cs[..n];
    assert cs == init + [cs[n]];
    if c == cs[n] {
      assert c !in init;
      LinkedMembers(init, target, x);
      assert multiset(Linked(init, target, x))[c] == 0;
    } else {
      assert c in init;
      assert Distinct(init);
      LinkedOnce(init, target, x, c);
    }
  }

  // ---------------------------------------------------------------------
  // Merging tables

  /** Setting `m[k]` under every key `k` of `ks`, in order. */
  function SetAll<K(==), T>(into: Table<K, T>, ks: seq<K>, m: map<K, T>): Table<K, T>
    requires forall k :: k in ks ==> k in m
  {
    if ks == [] then into
    else SetAll(into, ks[..|ks| - 1], m).Set(ks[|ks| - 1], m[ks[|ks| - 1]])
  }

  /** `from.forEach((v, k) => into.set(k, v))`. */
  function Merge<K(==), T>(into: Table<K, T>, from: Table<K, T>): Table<K, T>
    requires from.Valid()
  {
    SetAll(into, from.order, from.rows)
  }

  lemma {:induction false} SetAllRows<K, T>(into: Table<K, T>, ks: seq<K>, m: map<K, T>)
    requires forall k :: k in ks ==> k in m
    ensures into.Valid() ==> SetAll(into, ks, m).Valid()
    ensures forall k :: k in SetAll(into, ks, m).rows ==> k in into.rows || k in ks
    ensures forall k :: k in into.rows ==> k in SetAll(into, ks, m).rows
    ensures forall k :: k in ks ==> k in SetAll(into, ks, m).rows
    ensures forall k :: k in ks ==> SetAll(into, ks, m).rows[k] == m[k]
    ensures forall k :: k in into.rows && k !in ks ==> SetAll(into, ks, m).rows[k] == into.rows[k]
    ensures into.order <= SetAll(into, ks, m).order
  {
    if ks != [] {
      var n := |ks| - 1;
      SetAllRows(into, ks[..n], m);
      assert ks == ks[..n] + [ks[n]];
    }
  }

  /** Merging is last-write-wins: the merged table holds the keys of both,
      the incoming value wherever both have a key, and existing keys keep
      their position. */
  lemma {:induction false} MergeRows<K, T>(into: Table<K, T>, from: Table<K, T>)
    requires into.Valid() && from.Valid()
    ensures Merge(into, from).Valid()
    ensures Merge(into, from).rows == into.rows + from.rows
    ensures into.order <= Merge(into, from).order
  {
    SetAllRows(into, from.order, from.rows);
    var r, u := Merge(into, from).rows, into.rows + from.rows;
    forall k | k in r ensures k in u {
      assert k in from.order ==> k in from.rows;
    }
    forall k | k in u ensures k in r && r[k] == u[k] {
      assert k in from.rows <==> k in from.order;
    }
    assert r.Keys == u.Keys;
  }

  /** `from.forEach((v, k) => into.set(k, v))`: every entry of `from`, in
      its key order, is set into `into`. */
  method MergeInto<K, T>(into: Table<K, T>, from: Table<K, T>) returns (t: Table<K, T>)
    requires from.Valid()
    ensures t == Merge(into, from)
  {
    t := into;
    for i := 0 to |from.order|
      invariant t == SetAll(into, from.order[..i], from.rows)
    {
      assert from.order[..i + 1][..i] == from.order[..i];
      t := t.Set(from.order[i], from.rows[from.order[i]]);
    }
    assert from.order[..|from.order|] == from.order;
  }

  /** Every value of a merged table comes from one of the two tables. */
  lemma MergeValues<K, T>(into: Table<K, T>, from: Table<K, T>, v: T)
    requires into.Valid() && from.Valid() && v in Merge(into, from).rows.Values
    ensures v in into.rows.Values || v in from.rows.Values
  {
    MergeRows(into, from);
    var k :| k in Merge(into, from).rows && Merge(into, from).rows[k] == v;
    if k in from.rows {
      assert from.rows[k] == v;
    } else {
      assert into.rows[k] == v;
    }
  }

  /** Merging the tables in order, starting from the empty table. */
  function MergeAll<K(==), T>(ts: seq<Table<K, T>>): (r: Table<K, T>)
    requires forall i :: 0 <= i < |ts| ==> ts[i].Valid()
    ensures r.Valid()
  {
    if ts == [] then Empty()
    else
      var prev := MergeAll(ts[..|ts| - 1]);
      MergeRows(prev, ts[|ts| - 1]);
      Merge(prev, ts[|ts| - 1])
  }

  /** The index of the last table that holds `k`, or -1 when none does. */
  function LastWith<K(==), T>(ts: seq<Table<K, T>>, k: K): (r: int)
    ensures -1 <= r < |ts|
    ensures r >= 0 ==> k in ts[r].rows
    ensures forall j :: r < j < |ts| ==> k !in ts[j].rows
  {
    if ts == [] then -1
    else if k in ts[|ts| - 1].rows then |ts| - 1
    else LastWith(ts[..|ts| - 1], k)
  }

  /** The merged table holds a key iff some table does, and its value is
      the one from the last table that has it: a later table overwrites an
      earlier one. */
  lemma {:induction false} MergeAllLast<K, T>(ts: seq<Table<K, T>>, k: K)
    requires forall i :: 0 <= i < |ts| ==> ts[i].Valid()
    ensures k in MergeAll(ts).rows <==> LastWith(ts, k) >= 0
    ensures LastWith(ts, k) >= 0 ==> MergeAll(ts).rows[k] == ts[LastWith(ts, k)].rows[k]
  {
    if ts != [] {
      var n := |ts| - 1;
      MergeRows(MergeAll(ts[..n]), ts[n]);
      if k !in ts[n].rows {
        MergeAllLast(ts[..n], k);
      }
    }
  }

  /** Every value of the merge of `ts` is a value of one of them. */
  lemma {:induction false} MergeAllValues<K, T>(ts: seq<Table<K, T>>, v: T)
    requires forall i :: 0 <= i < |ts| ==> ts[i].Valid()
    requires v in MergeAll(ts).rows.Values
    ensures exists i :: 0 <= i < |ts| && v in ts[i].rows.Values
  {
    var n := |ts| - 1;
    MergeValues(MergeAll(ts[..n]), ts[n], v);
    if v !in ts[n].rows.Values {
      MergeAllValues(ts[..n], v);
      var i :| 0 <= i < n && v in ts[..n][i].rows.Values;
      assert ts[..n][i] == ts[i];
    }
  }

  /** The merge holds no value that none of the tables holds. */
  lemma MergeAllWithin<K, T>(ts: seq<Table<K, T>>, s: set<T>)
    requires forall i :: 0 <= i < |ts| ==> ts[i].Valid() && ts[i].rows.Values <= s
    ensures MergeAll(ts).rows.Values <= s
  {
    forall v | v in MergeAll(ts).rows.Values
      ensures v in s
    {
      MergeAllValues(ts, v);
    }
  }

  /** Merging one more table merges it into the merge of the others. */
  lemma MergeAllSnoc<K, T>(ts: seq<Table<K, T>>, t: Table<K, T>)
    requires forall i :: 0 <= i < |ts| ==> ts[i].Valid()
    requires t.Valid()
    ensures MergeAll(ts + [t]) == Merge(MergeAll(ts), t)
  {
    assert (ts + [t])[..|ts|] == ts;
  }
}
