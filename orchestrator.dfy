/**
 * `GameData.load` of docs/main.ts (lines 403-466): every table of the game
 * data, loaded in a fixed order so that each loader resolves its keys
 * against tables loaded before it. The eleven per-category item tables
 * are merged into `all_items`, a later category overwriting an earlier
 * one on a shared id.
 *
 * Every `fetch` is a lookup in `Sources`, a function from a path to what
 * fetching it gives. What the final state promises about each table is
 * what no later loader changes: its keys, and the references it resolved
 * through fields that are set once.
 */
module Orchestrator {
  import opened Tables
  import opened Rows
  import opened Entities

  /** The item categories, one item document each (docs/main.ts:403-415). */
  const ITEM_CATEGORIES: seq<string> :=
    ["Armor", "Consume", "Craft", "Important", "Kit", "LifeTools", "Material", "PowerUp", "Recipe",
     "Vehicle", "Weapon"]

  const ITEM_NOUN_PATH := "GameData/Item/GDSItemText_Noun.json"
  const ITEM_TEXT_PATH := "GameData/Item/GDSItemText.json"
  const BATTLE_TABLE_PATH := "GameData/Item/GDSBattleItemTableSetting.json"
  const BATTLE_GROUP_PATH := "GameData/Item/GDSBattleItemTableGroupSetting.json"
  const COMMON_PICK_PATH := "GameData/Map/GDSCommonPickParamData.json"
  const FISHING_PATH := "GameData/Map/GDSFishingParamData.json"
  const VEGETABLE_PATH := "GameData/Map/GDSVegetableParamData.json"
  const PICK_PARAM_PATH := "GameData/Map/GDSPickParamData.json"
  const PICK_GROUP_PATH := "GameData/Map/GDSPickPointGroup.json"
  const CHARA_NOUN_PATH := "GameData/Chara/GDSCharaText_Noun.json"
  const CHARA_PATH := "GameData/Chara/GDSCharaData.json"
  const ENEMY_PARAM_PATH := "GameData/Chara/GDSCharaParameterEnemy.json"
  const MENU_TEXT_PATH := "GameData/Menu/GDSMenuText.json"
  const SHOP_PATH := "GameData/Shop/GDSShopData.json"
  const MAP_NOUN_PATH := "GameData/Map/GDSMapText_Noun.json"
  const MAP_PATH := "GameData/Map/GDSMapData.json"
  const RECIPE_PATH := "GameData/Recipe/GDSRecipeData.json"

  function NounField(lang: string): string {
    "nounSingularForm_" + lang
  }

  function TextField(lang: string): string {
    "text_" + lang
  }

  /** What fetching each path gives, one function per kind of document;
      `items(category)` is what fetching the item document of a category,
      `GameData/Item/GDSItem<category>Data.json`, gives. */
  datatype Sources = Sources(
    texts: string -> Response<TextRow>,
    items: string -> Response<ItemRow>,
    itemTables: string -> Response<TableRow>,
    itemGroups: string -> Response<GroupRow>,
    commonPicks: string -> Response<CommonPickRow>,
    vegetables: string -> Response<VegetableRow>,
    pickParams: string -> Response<PickParamRow>,
    pointGroups: string -> Response<PointGroupRow>,
    charas: string -> Response<CharaRow>,
    charaParams: string -> Response<CharaParamRow>,
    shops: string -> Response<ShopRow>,
    maps: string -> Response<MapRow>,
    mapFiles: MapFiles,
    recipes: string -> Response<RecipeRow>)

  /** Every row of a text document has the array `TextData.load` reads. */
  ghost predicate HasField(resp: Response<TextRow>, field: string) {
    forall e :: e in Entries(resp) ==> field in e.value.fields
  }

  /** The text documents are well formed. */
  ghost predicate TextsWellFormed(src: Sources) {
    && HasField(src.texts(ITEM_NOUN_PATH), "textInfo") && HasField(src.texts(ITEM_TEXT_PATH), "textInfo")
    && HasField(src.texts(CHARA_NOUN_PATH), "textInfo") && HasField(src.texts(MENU_TEXT_PATH), "textInfo")
    && HasField(src.texts(MAP_NOUN_PATH), "nounInfo")
  }

  // ---------------------------------------------------------------------
  // What a loaded table resolved, through fields set once

  ghost predicate Texts(t: Table<string, TextData>, textField: string, langField: string) {
    forall x :: x in t.rows.Values ==> textField in x.raw.fields && x.text == TextOf(x.raw, textField, langField)
  }

  ghost predicate ItemsNamed(t: Table<string, ItemData>, names: Table<string, TextData>,
                             descs: Table<string, TextData>)
  {
    forall x :: x in t.rows.Values ==>
      x.name == GetProperty(names, x.raw.nameId) && x.desc == GetProperty(descs, x.raw.descId)
  }

  ghost predicate DropsResolved(t: Table<string, CommonPickParamData>, groups: Table<string, ItemTableGroupSetting>) {
    forall c :: c in t.rows.Values ==> c.drop == GetProperty(groups, c.raw.dropTableGroupId)
  }

  ghost predicate PicksResolved(t: Table<string, PickParamData>, commons: Table<string, CommonPickParamData>,
                                fishings: Table<string, CommonPickParamData>,
                                vegetables: Table<string, VegetableParamData>)
  {
    forall p :: p in t.rows.Values ==>
      && p.common == GetProperty(commons, p.raw.commonPickDataId)
      && p.fishing == GetProperty(fishings, p.raw.fishingParamDataId)
      && p.vegetable == GetProperty(vegetables, p.raw.vegetableParamDataId)
  }

  ghost predicate CharasNamed(t: Table<string, CharaData>, names: Table<string, TextData>) {
    forall c :: c in t.rows.Values ==> c.name == GetProperty(names, c.raw.nameId)
  }

  ghost predicate ParamsResolved(t: Table<string, CharaParameter>, charas: Table<string, CharaData>) {
    forall p :: p in t.rows.Values ==> p.chara == GetProperty(charas, p.raw.charaId)
  }

  ghost predicate ShopsNamed(t: Table<string, ShopData>, text: Table<string, TextData>) {
    forall s :: s in t.rows.Values ==> s.name == ShopName(s.raw, text)
  }

  ghost predicate MapsNamed(t: Table<string, MapData>, names: Table<string, TextData>) {
    forall m :: m in t.rows.Values ==> m.name == GetProperty(names, m.raw.mapName)
  }

  ghost predicate RecipesResolved(t: Table<string, RecipeData>, items: Table<string, ItemData>) {
    forall r :: r in t.rows.Values ==> r.item == GetProperty(items, r.raw.itemId)
  }

  // ---------------------------------------------------------------------
  // What a loaded table's rows hold in the child lists set when they were
  // created

  /** Every table's `data` holds a detail per row of its `tableData`,
      resolved against `items`. */
  ghost predicate TablesHold(t: Table<string, ItemTableSetting>, items: Table<string, ItemData>)
    reads t.rows.Values`data
  {
    forall x :: x in t.rows.Values ==> x.Holds(items)
  }

  /** Every group's `data` holds an entry per row of its `tableData`,
      resolved against `tables`. */
  ghost predicate GroupsHold(t: Table<string, ItemTableGroupSetting>, tables: Table<string, ItemTableSetting>)
    reads t.rows.Values`data
  {
    forall g :: g in t.rows.Values ==> g.Holds(tables)
  }

  /** Every pick-point group's `data` holds an entry per row of its
      `groupData`, resolved against `params`. */
  ghost predicate PointGroupsHold(t: Table<string, PickPointGroup>, params: Table<string, PickParamData>)
    reads t.rows.Values`data
  {
    forall g :: g in t.rows.Values ==> g.Holds(params)
  }

  /** The battle tables, their groups and the pick-point groups hold the
      entries made when they were loaded. */
  ghost predicate DropsHeld(all: Table<string, ItemData>, tables: Table<string, ItemTableSetting>,
                            groups: Table<string, ItemTableGroupSetting>, picks: Table<string, PickParamData>,
                            points: Table<string, PickPointGroup>)
    reads tables.rows.Values`data, groups.rows.Values`data, points.rows.Values`data
  {
    TablesHold(tables, all) && GroupsHold(groups, tables) && PointGroupsHold(points, picks)
  }

  /** Every shop's `items` holds an entry per row of its `itemInfoList`,
      resolved against `items`. */
  ghost predicate ShopsHold(t: Table<string, ShopData>, items: Table<string, ItemData>)
    reads t.rows.Values`items
  {
    forall s :: s in t.rows.Values ==> s.Holds(items)
  }

  /** Every recipe's `itemList` holds a material per row of its
      `itemList`, resolved against `items`. */
  ghost predicate RecipesHold(t: Table<string, RecipeData>, items: Table<string, ItemData>)
    reads t.rows.Values`itemList
  {
    forall r :: r in t.rows.Values ==> r.Holds(items)
  }

  // ---------------------------------------------------------------------
  // Item categories

  /** The tables `cats` maps the categories `names` to, in that order. */
  function CategoryTables<K(==), T>(cats: Table<string, Table<K, T>>, names: seq<string>)
    : (ts: seq<Table<K, T>>)
    requires forall c :: c in names ==> c in cats.rows
    ensures |ts| == |names|
  {
    if names == [] then []
    else CategoryTables(cats, names[..|names| - 1]) + [cats.rows[names[|names| - 1]]]
  }

  lemma {:induction false} CategoryTablesAt<K, T>(cats: Table<string, Table<K, T>>, names: seq<string>)
    requires forall c :: c in names ==> c in cats.rows
    ensures forall i :: 0 <= i < |names| ==> CategoryTables(cats, names)[i] == cats.rows[names[i]]
  {
    if names != [] {
      var n := |names| - 1;
      CategoryTablesAt(cats, names[..n]);
      assert forall i :: 0 <= i < n ==> names[..n][i] == names[i];
    }
  }

  /** Table `tabs[j]` is the one loaded from the item document of category
      `categories[j]`, its items named from `names` and `descs`. */
  ghost predicate CategoriesFrom(tabs: seq<Table<string, ItemData>>, categories: seq<string>, src: Sources,
                                 names: Table<string, TextData>, descs: Table<string, TextData>)
    decreases |tabs|
  {
    && |tabs| <= |categories|
    && (tabs == []
        || (&& CategoriesFrom(tabs[..|tabs| - 1], categories, src, names, descs)
            && CategoryLoaded(tabs[|tabs| - 1], categories[|tabs| - 1], src, names, descs)))
  }

  /** Table `t` is the one loaded from the item document of category `c`,
      its items named from `names` and `descs`. */
  ghost predicate CategoryLoaded(t: Table<string, ItemData>, c: string, src: Sources,
                                 names: Table<string, TextData>, descs: Table<string, TextData>)
  {
    LoadedFrom(t, src.items(c), ItemRaw) && ItemsNamed(t, names, descs)
  }

  lemma CategoriesFromSnoc(tabs: seq<Table<string, ItemData>>, categories: seq<string>, src: Sources,
                           names: Table<string, TextData>, descs: Table<string, TextData>,
                           items: Table<string, ItemData>)
    requires |tabs| < |categories| && CategoriesFrom(tabs, categories, src, names, descs)
    requires LoadedFrom(items, src.items(categories[|tabs|]), ItemRaw) && ItemsNamed(items, names, descs)
    ensures CategoriesFrom(tabs + [items], categories, src, names, descs)
  {
    var next := tabs + [items];
    assert next[..|next| - 1] == tabs && next[|next| - 1] == items;
    assert CategoryLoaded(items, categories[|tabs|], src, names, descs);
  }

  /** What one turn of the category loop does to the tables loaded so
      far, their merge and the map from categories to tables. */
  lemma CategoryNext(tabs: seq<Table<string, ItemData>>, categories: seq<string>,
                     src: Sources, names: Table<string, TextData>, descs: Table<string, TextData>,
                     items: Table<string, ItemData>, all: Table<string, ItemData>,
                     cats: Table<string, Table<string, ItemData>>)
    requires |tabs| < |categories| && CategoriesFrom(tabs, categories, src, names, descs)
    requires forall j :: 0 <= j < |tabs| ==> tabs[j].Valid()
    requires all == MergeAll(tabs) && cats == Build(categories[..|tabs|], tabs)
    requires LoadedFrom(items, src.items(categories[|tabs|]), ItemRaw) && ItemsNamed(items, names, descs)
    ensures CategoriesFrom(tabs + [items], categories, src, names, descs)
    ensures MergeAll(tabs + [items]) == Merge(all, items)
    ensures Build(categories[..|tabs| + 1], tabs + [items]) == cats.Set(categories[|tabs|], items)
  {
    var i := |tabs|;
    CategoriesFromSnoc(tabs, categories, src, names, descs, items);
    MergeAllSnoc(tabs, items);
    BuildSnoc(categories[..i], tabs, categories[i], items);
    TakeSnoc(categories, i);
  }

  /** The tables loaded so far stay well formed and within the items made. */
  lemma WithinSnoc(tabs: seq<Table<string, ItemData>>, made: set<ItemData>, items: Table<string, ItemData>)
    requires forall j :: 0 <= j < |tabs| ==> tabs[j].Valid() && tabs[j].rows.Values <= made
    requires items.Valid()
    ensures forall j :: 0 <= j < |tabs| + 1 ==>
      (tabs + [items])[j].Valid() && (tabs + [items])[j].rows.Values <= made + items.rows.Values
  {
    forall j | 0 <= j < |tabs| + 1
      ensures (tabs + [items])[j].Valid() && (tabs + [items])[j].rows.Values <= made + items.rows.Values
    {
      if j < |tabs| {
        assert (tabs + [items])[j] == tabs[j];
      }
    }
  }

  lemma TakeSnoc<T>(s: seq<T>, i: nat)
    requires i < |s|
    ensures s[..i + 1] == s[..i] + [s[i]]
  {
  }

  lemma {:induction false} CategoriesFromAt(tabs: seq<Table<string, ItemData>>, categories: seq<string>,
                                            src: Sources, names: Table<string, TextData>,
                                            descs: Table<string, TextData>, j: nat)
    requires CategoriesFrom(tabs, categories, src, names, descs) && j < |tabs|
    ensures j < |categories|
    ensures LoadedFrom(tabs[j], src.items(categories[j]), ItemRaw) && ItemsNamed(tabs[j], names, descs)
    decreases |tabs|
  {
    if j < |tabs| - 1 {
      CategoriesFromAt(tabs[..|tabs| - 1], categories, src, names, descs, j);
    }
  }

  /** `all` is the merge, in the order of `categories`, of the tables
      `cats` maps them to. */
  ghost predicate MergedCategories<K, T>(cats: Table<string, Table<K, T>>, all: Table<K, T>,
                                           categories: seq<string>)
  {
    && (forall c :: c in categories ==> c in cats.rows && cats.rows[c].Valid())
    && (CategoryTablesAt(cats, categories); all == MergeAll(CategoryTables(cats, categories)))
  }

  /** `cats` maps exactly the categories `categories`, in order, each to
      the table loaded from its own document with the names and
      descriptions given, and `all` is their merge in that order. */
  ghost predicate CategoriesLoaded(cats: Table<string, Table<string, ItemData>>, all: Table<string, ItemData>,
                                   categories: seq<string>, src: Sources, names: Table<string, TextData>,
                                   descs: Table<string, TextData>)
  {
    && cats.Valid() && cats.order == categories
    && (forall c :: c in categories ==>
          && c in cats.rows && LoadedFrom(cats.rows[c], src.items(c), ItemRaw) && ItemsNamed(cats.rows[c], names, descs))
    && MergedCategories(cats, all, categories)
  }

  lemma CategoriesDistinct()
    ensures Distinct(ITEM_CATEGORIES)
  {
  }

  /** Each category of the loop is mapped to the table loaded for it. */
  lemma CategoriesMapped(tabs: seq<Table<string, ItemData>>, categories: seq<string>,
                         cats: Table<string, Table<string, ItemData>>, src: Sources,
                         names: Table<string, TextData>, descs: Table<string, TextData>)
    requires |tabs| == |categories| && Distinct(categories)
    requires CategoriesFrom(tabs, categories, src, names, descs)
    requires cats == Build(categories, tabs)
    ensures forall j :: 0 <= j < |tabs| ==> categories[j] in cats.rows && cats.rows[categories[j]] == tabs[j]
    ensures forall c :: c in categories ==>
      c in cats.rows && LoadedFrom(cats.rows[c], src.items(c), ItemRaw) && ItemsNamed(cats.rows[c], names, descs)
  {
    forall j | 0 <= j < |tabs|
      ensures categories[j] in cats.rows && cats.rows[categories[j]] == tabs[j]
      ensures LoadedFrom(tabs[j], src.items(categories[j]), ItemRaw) && ItemsNamed(tabs[j], names, descs)
    {
      BuildLastWins(categories, tabs, j);
      CategoriesFromAt(tabs, categories, src, names, descs, j);
    }
  }

  /** The loop over the categories leaves `item_categories` and
      `all_items` as `CategoriesLoaded` says. */
  lemma CategoriesBuilt(tabs: seq<Table<string, ItemData>>, categories: seq<string>,
                        cats: Table<string, Table<string, ItemData>>, all: Table<string, ItemData>, src: Sources,
                        names: Table<string, TextData>, descs: Table<string, TextData>)
    requires |tabs| == |categories| && Distinct(categories)
    requires CategoriesFrom(tabs, categories, src, names, descs)
    requires forall j :: 0 <= j < |tabs| ==> tabs[j].Valid()
    requires cats == Build(categories, tabs) && all == MergeAll(tabs)
    ensures CategoriesLoaded(cats, all, categories, src, names, descs)
  {
    BuildKeys(categories, tabs);
    BuildDistinctOrder(categories, tabs);
    CategoriesMapped(tabs, categories, cats, src, names, descs);
    CategoriesMerged(tabs, categories, cats, all);
  }

  lemma CategoriesMerged<K, T>(tabs: seq<Table<K, T>>, categories: seq<string>,
                               cats: Table<string, Table<K, T>>, all: Table<K, T>)
    requires |tabs| == |categories| && forall j :: 0 <= j < |tabs| ==> tabs[j].Valid()
    requires forall j :: 0 <= j < |tabs| ==> categories[j] in cats.rows && cats.rows[categories[j]] == tabs[j]
    requires all == MergeAll(tabs)
    ensures MergedCategories(cats, all, categories)
  {
    CategoryTablesAt(cats, categories);
    assert CategoryTables(cats, categories) == tabs;
  }

  /** `all_items` holds an id iff the table of some category does, and
      then holds the item of the last category in `categories` that has
      it: a later category overwrites an earlier one. */
  lemma AllItemsLastWins<K, T>(cats: Table<string, Table<K, T>>, all: Table<K, T>,
                               categories: seq<string>, id: K)
    requires MergedCategories(cats, all, categories)
    ensures id in all.rows <==> exists j :: 0 <= j < |categories| && id in cats.rows[categories[j]].rows
    ensures id in all.rows ==>
      exists j :: && 0 <= j < |categories| && id in cats.rows[categories[j]].rows
                  && all.rows[id] == cats.rows[categories[j]].rows[id]
                  && forall k :: j < k < |categories| ==> id !in cats.rows[categories[k]].rows
  {
    CategoryTablesAt(cats, categories);
    var ts := CategoryTables(cats, categories);
    MergeAllLast(ts, id);
    var j := LastWith(ts, id);
    if id in all.rows {
      assert ts[j] == cats.rows[categories[j]];
    } else {
      forall k | 0 <= k < |categories|
        ensures id !in cats.rows[categories[k]].rows
      {
        assert ts[k] == cats.rows[categories[k]];
      }
    }
  }

  /** An item of the merge is the row built from the last entry keyed by
      its id in the item document of some category, named and described
      through `names` and `descs`. */
  lemma ItemFromCategory(cats: Table<string, Table<string, ItemData>>, all: Table<string, ItemData>,
                         categories: seq<string>, src: Sources, names: Table<string, TextData>,
                         descs: Table<string, TextData>, id: string)
    requires CategoriesLoaded(cats, all, categories, src, names, descs) && id in all.rows
    ensures exists j :: && 0 <= j < |categories|
                        && LastValue(NormalKeys(Entries(src.items(categories[j]))), Entries(src.items(categories[j])), id)
                           == Some(all.rows[id].raw)
    ensures all.rows[id].name == GetProperty(names, all.rows[id].raw.nameId)
    ensures all.rows[id].desc == GetProperty(descs, all.rows[id].raw.descId)
  {
    AllItemsLastWins(cats, all, categories, id);
    var j :| && 0 <= j < |categories| && id in cats.rows[categories[j]].rows
             && all.rows[id] == cats.rows[categories[j]].rows[id];
    var t := cats.rows[categories[j]];
    assert all.rows[id] in t.rows.Values;
    assert LastValue(NormalKeys(Entries(src.items(categories[j]))), Entries(src.items(categories[j])), id)
           == Some(ItemRaw(t.rows[id]));
  }

  /** Resolving `prop` in a text table loaded from `resp` gives null
      exactly when `prop` is `'None'` or no entry has it, and otherwise the
      row of the last entry keyed `prop`, with its text looked up in
      `textField` for `langField`. */
  lemma TextFrom(t: Table<string, TextData>, resp: Response<TextRow>, textField: string, langField: string,
                 prop: string)
    requires LoadedFrom(t, resp, TextRaw) && Texts(t, textField, langField)
    ensures GetProperty(t, prop).Some? <==> prop != "None" && prop in NormalKeys(Entries(resp))
    ensures GetProperty(t, prop).Some? ==>
      && LastValue(NormalKeys(Entries(resp)), Entries(resp), prop) == Some(GetProperty(t, prop).value.raw)
      && textField in GetProperty(t, prop).value.raw.fields
      && GetProperty(t, prop).value.text == TextOf(GetProperty(t, prop).value.raw, textField, langField)
  {
    LookupFrom(t, resp, TextRaw, prop);
    if GetProperty(t, prop).Some? {
      assert GetProperty(t, prop).value in t.rows.Values;
    }
  }

  /** An item of `all_items` is the row of some category's item document,
      and its name is the row of the item noun document keyed by its
      `nameId` (the last such row when the key repeats), or null when that
      id is `'None'` or no entry has it. */
  lemma ItemNamedByNoun(src: Sources, lang: string, names: Table<string, TextData>, descs: Table<string, TextData>,
                        all: Table<string, ItemData>, cats: Table<string, Table<string, ItemData>>, id: string)
    requires ItemsLoaded(src, lang, names, descs, all, cats) && id in all.rows
    ensures exists j :: && 0 <= j < |ITEM_CATEGORIES|
                        && LastValue(NormalKeys(Entries(src.items(ITEM_CATEGORIES[j]))),
                                     Entries(src.items(ITEM_CATEGORIES[j])), id) == Some(all.rows[id].raw)
    ensures var x, noun := all.rows[id], src.texts(ITEM_NOUN_PATH);
      && (x.name.Some? <==> x.raw.nameId != "None" && x.raw.nameId in NormalKeys(Entries(noun)))
      && (x.name.Some? ==>
            && LastValue(NormalKeys(Entries(noun)), Entries(noun), x.raw.nameId) == Some(x.name.value.raw)
            && "textInfo" in x.name.value.raw.fields
            && x.name.value.text == TextOf(x.name.value.raw, "textInfo", NounField(lang)))
  {
    ItemFromCategory(cats, all, ITEM_CATEGORIES, src, names, descs, id);
    TextFrom(names, src.texts(ITEM_NOUN_PATH), "textInfo", NounField(lang), all.rows[id].raw.nameId);
  }

  /** A shop of `shop_data` is the row of the shop document's last entry
      with its key, and its name is null when `buyShopNameIdArray` is
      empty, or its first id is `'None'` or no menu-text entry has it;
      otherwise it is the row of the last menu-text entry keyed by that
      first id, with its text in the language loaded. */
  lemma ShopNamedByText(src: Sources, lang: string, all: Table<string, ItemData>, text: Table<string, TextData>,
                        shops: Table<string, ShopData>, names: Table<string, TextData>,
                        maps: Table<string, MapData>, recipes: Table<string, RecipeData>, id: string)
    requires WorldLoaded(src, lang, all, text, shops, names, maps, recipes) && id in shops.rows
    ensures LastValue(NormalKeys(Entries(src.shops(SHOP_PATH))), Entries(src.shops(SHOP_PATH)), id)
            == Some(shops.rows[id].raw)
    ensures var s, ids, menu := shops.rows[id], shops.rows[id].raw.buyShopNameIds, src.texts(MENU_TEXT_PATH);
      && (s.name.Some? <==> |ids| > 0 && ids[0] != "None" && ids[0] in NormalKeys(Entries(menu)))
      && (s.name.Some? ==>
            && LastValue(NormalKeys(Entries(menu)), Entries(menu), ids[0]) == Some(s.name.value.raw)
            && "textInfo" in s.name.value.raw.fields
            && s.name.value.text == TextOf(s.name.value.raw, "textInfo", TextField(lang)))
  {
    var s := shops.rows[id];
    assert s in shops.rows.Values;
    if |s.raw.buyShopNameIds| > 0 {
      TextFrom(text, src.texts(MENU_TEXT_PATH), "textInfo", TextField(lang), s.raw.buyShopNameIds[0]);
    }
  }

  // ---------------------------------------------------------------------
  // The tables `GameData.load` fills, phase by phase

  /** The item tables: names, descriptions, categories and their merge. */
  ghost predicate ItemsLoaded(src: Sources, lang: string, names: Table<string, TextData>,
                              descs: Table<string, TextData>, all: Table<string, ItemData>,
                              cats: Table<string, Table<string, ItemData>>)
  {
    && LoadedFrom(names, src.texts(ITEM_NOUN_PATH), TextRaw) && Texts(names, "textInfo", NounField(lang))
    && LoadedFrom(descs, src.texts(ITEM_TEXT_PATH), TextRaw) && Texts(descs, "textInfo", TextField(lang))
    && CategoriesLoaded(cats, all, ITEM_CATEGORIES, src, names, descs)
  }

  /** The drop tables and pick tables, each resolved against the ones
      before it. */
  ghost predicate DropsLoaded(src: Sources, all: Table<string, ItemData>, tables: Table<string, ItemTableSetting>,
                              groups: Table<string, ItemTableGroupSetting>,
                              commons: Table<string, CommonPickParamData>,
                              fishings: Table<string, CommonPickParamData>,
                              vegetables: Table<string, VegetableParamData>, picks: Table<string, PickParamData>,
                              points: Table<string, PickPointGroup>)
    reads tables.rows.Values`data, groups.rows.Values`data, points.rows.Values`data
  {
    && LoadedFrom(tables, src.itemTables(BATTLE_TABLE_PATH), TableRaw)
    && LoadedFrom(groups, src.itemGroups(BATTLE_GROUP_PATH), GroupRaw)
    && LoadedFrom(commons, src.commonPicks(COMMON_PICK_PATH), CommonRaw) && DropsResolved(commons, groups)
    && LoadedFrom(fishings, src.commonPicks(FISHING_PATH), CommonRaw) && DropsResolved(fishings, groups)
    && LoadedFrom(vegetables, src.vegetables(VEGETABLE_PATH), VegetableRaw)
    && LoadedFrom(picks, src.pickParams(PICK_PARAM_PATH), PickRaw) && PicksResolved(picks, commons, fishings, vegetables)
    && LoadedFrom(points, src.pointGroups(PICK_GROUP_PATH), PointGroupRaw)
    && DropsHeld(all, tables, groups, picks, points)
  }

  /** The character tables. */
  ghost predicate CharasLoaded(src: Sources, lang: string, names: Table<string, TextData>,
                               charas: Table<string, CharaData>, params: Table<string, CharaParameter>)
  {
    && LoadedFrom(names, src.texts(CHARA_NOUN_PATH), TextRaw) && Texts(names, "textInfo", NounField(lang))
    && LoadedFrom(charas, src.charas(CHARA_PATH), CharaRaw) && CharasNamed(charas, names)
    && LoadedFrom(params, src.charaParams(ENEMY_PARAM_PATH), ParamRaw) && ParamsResolved(params, charas)
  }

  /** The shop, map and recipe tables. */
  ghost predicate WorldLoaded(src: Sources, lang: string, all: Table<string, ItemData>, text: Table<string, TextData>,
                              shops: Table<string, ShopData>, names: Table<string, TextData>,
                              maps: Table<string, MapData>, recipes: Table<string, RecipeData>)
    reads shops.rows.Values`items, recipes.rows.Values`itemList
  {
    ShopsLoaded(src, lang, all, text, shops) && PlacesLoaded(src, lang, names, maps) && RecipesLoaded(src, all, recipes)
  }

  /** The menu text, and the shops against it and `all_items`. */
  ghost predicate ShopsLoaded(src: Sources, lang: string, all: Table<string, ItemData>, text: Table<string, TextData>,
                              shops: Table<string, ShopData>)
    reads shops.rows.Values`items
  {
    && LoadedFrom(text, src.texts(MENU_TEXT_PATH), TextRaw) && Texts(text, "textInfo", TextField(lang))
    && LoadedFrom(shops, src.shops(SHOP_PATH), ShopRaw) && ShopsNamed(shops, text) && ShopsHold(shops, all)
  }

  /** The map names, and the maps named by them. */
  ghost predicate PlacesLoaded(src: Sources, lang: string, names: Table<string, TextData>, maps: Table<string, MapData>) {
    && LoadedFrom(names, src.texts(MAP_NOUN_PATH), TextRaw) && Texts(names, "nounInfo", NounField(lang))
    && LoadedFrom(maps, src.maps(MAP_PATH), MapRaw) && MapsNamed(maps, names)
  }

  /** The recipes against `all_items`. */
  ghost predicate RecipesLoaded(src: Sources, all: Table<string, ItemData>, recipes: Table<string, RecipeData>)
    reads recipes.rows.Values`itemList
  {
    LoadedFrom(recipes, src.recipes(RECIPE_PATH), RecipeRaw) && RecipesResolved(recipes, all) && RecipesHold(recipes, all)
  }

  /** Every map of the map table holds the three tables of its own
      documents, its pick points resolved against `points`: no loader
      after the maps changes those tables. */
  ghost predicate MapsHeld(src: Sources, points: Table<string, PickPointGroup>, maps: Table<string, MapData>)
    reads maps.rows.Values`pickPoints, maps.rows.Values`enemies, maps.rows.Values`shops
  {
    forall m :: m in maps.rows.Values ==> m.Held(src.mapFiles, points)
  }

  /** Every table loaded, from the documents `src` gives, in the language
      `lang`. */
  ghost predicate AllLoaded(src: Sources, lang: string, names: Table<string, TextData>, descs: Table<string, TextData>,
                            all: Table<string, ItemData>, cats: Table<string, Table<string, ItemData>>,
                            tables: Table<string, ItemTableSetting>, groups: Table<string, ItemTableGroupSetting>,
                            commons: Table<string, CommonPickParamData>, fishings: Table<string, CommonPickParamData>,
                            vegetables: Table<string, VegetableParamData>, picks: Table<string, PickParamData>,
                            points: Table<string, PickPointGroup>, charaNames: Table<string, TextData>,
                            charas: Table<string, CharaData>, params: Table<string, CharaParameter>,
                            text: Table<string, TextData>, shops: Table<string, ShopData>,
                            mapNames: Table<string, TextData>, maps: Table<string, MapData>,
                            recipes: Table<string, RecipeData>)
    reads *
  {
    && ItemsLoaded(src, lang, names, descs, all, cats)
    && DropsLoaded(src, all, tables, groups, commons, fishings, vegetables, picks, points)
    && CharasLoaded(src, lang, charaNames, charas, params)
    && WorldLoaded(src, lang, all, text, shops, mapNames, maps, recipes)
    && MapsHeld(src, points, maps)
  }

  class GameData {
    var itemNames: Table<string, TextData>
    var itemDescs: Table<string, TextData>
    var allItems: Table<string, ItemData>
    var itemCategories: Table<string, Table<string, ItemData>>
    var battleItemTables: Table<string, ItemTableSetting>
    var battleItemGroups: Table<string, ItemTableGroupSetting>
    var commonPickParams: Table<string, CommonPickParamData>
    var fishingParams: Table<string, CommonPickParamData>
    var vegetableParams: Table<string, VegetableParamData>
    var pickParams: Table<string, PickParamData>
    var pickGroups: Table<string, PickPointGroup>
    var charaNames: Table<string, TextData>
    var charaData: Table<string, CharaData>
    var enemyParams: Table<string, CharaParameter>
    var menuText: Table<string, TextData>
    var shopData: Table<string, ShopData>
    var mapNames: Table<string, TextData>
    var mapData: Table<string, MapData>
    var recipeData: Table<string, RecipeData>

    /** Every table loaded, from the documents `src` gives, in the
        language `lang`. */
    ghost predicate Loaded(src: Sources, lang: string)
      reads *
    {
      AllLoaded(src, lang, itemNames, itemDescs, allItems, itemCategories, battleItemTables, battleItemGroups,
                commonPickParams, fishingParams, vegetableParams, pickParams, pickGroups, charaNames, charaData,
                enemyParams, menuText, shopData, mapNames, mapData, recipeData)
    }

    /** The tables `GameData.load` assigns, each to its field. */
    constructor Of(names: Table<string, TextData>, descs: Table<string, TextData>, all: Table<string, ItemData>,
                   cats: Table<string, Table<string, ItemData>>, tables: Table<string, ItemTableSetting>,
                   groups: Table<string, ItemTableGroupSetting>, commons: Table<string, CommonPickParamData>,
                   fishings: Table<string, CommonPickParamData>, vegetables: Table<string, VegetableParamData>,
                   picks: Table<string, PickParamData>, points: Table<string, PickPointGroup>,
                   charaNames: Table<string, TextData>, charas: Table<string, CharaData>,
                   params: Table<string, CharaParameter>, text: Table<string, TextData>,
                   shops: Table<string, ShopData>, mapNames: Table<string, TextData>, maps: Table<string, MapData>,
                   recipes: Table<string, RecipeData>)
      ensures itemNames == names && itemDescs == descs && allItems == all && itemCategories == cats
      ensures battleItemTables == tables && battleItemGroups == groups
      ensures commonPickParams == commons && fishingParams == fishings && vegetableParams == vegetables
      ensures pickParams == picks && pickGroups == points
      ensures this.charaNames == charaNames && charaData == charas && enemyParams == params
      ensures menuText == text && shopData == shops && this.mapNames == mapNames && mapData == maps
      ensures recipeData == recipes
    {
      itemNames, itemDescs, allItems, itemCategories := names, descs, all, cats;
      battleItemTables, battleItemGroups := tables, groups;
      commonPickParams, fishingParams, vegetableParams, pickParams, pickGroups :=
        commons, fishings, vegetables, picks, points;
      this.charaNames, charaData, enemyParams := charaNames, charas, params;
      menuText, shopData, this.mapNames, mapData, recipeData := text, shops, mapNames, maps, recipes;
    }

    /** `GameData.load` (docs/main.ts:438-465): every table loaded in the
        source's order, then held by a new `GameData`. */
    static method Load(src: Sources, lang: string) returns (data: GameData)
      requires TextsWellFormed(src)
      ensures fresh(data) && data.Loaded(src, lang)
    {
      var names, descs, all, cats, tables, groups, commons, fishings, vegetables, picks, points, charaNames,
          charas, params, text, shops, mapNames, maps, recipes := LoadAll(src, lang);
      data := new GameData.Of(names, descs, all, cats, tables, groups, commons, fishings, vegetables, picks, points,
                              charaNames, charas, params, text, shops, mapNames, maps, recipes);
    }
  }

  /** The loaders of `GameData.load` (docs/main.ts:440-463), in order,
      each given the tables loaded before it. */
  method LoadAll(src: Sources, lang: string)
    returns (names: Table<string, TextData>, descs: Table<string, TextData>, all: Table<string, ItemData>,
             cats: Table<string, Table<string, ItemData>>, tables: Table<string, ItemTableSetting>,
             groups: Table<string, ItemTableGroupSetting>, commons: Table<string, CommonPickParamData>,
             fishings: Table<string, CommonPickParamData>, vegetables: Table<string, VegetableParamData>,
             picks: Table<string, PickParamData>, points: Table<string, PickPointGroup>,
             charaNames: Table<string, TextData>, charas: Table<string, CharaData>,
             params: Table<string, CharaParameter>, text: Table<string, TextData>, shops: Table<string, ShopData>,
             mapNames: Table<string, TextData>, maps: Table<string, MapData>, recipes: Table<string, RecipeData>)
    requires TextsWellFormed(src)
    ensures AllLoaded(src, lang, names, descs, all, cats, tables, groups, commons, fishings, vegetables, picks, points,
                      charaNames, charas, params, text, shops, mapNames, maps, recipes)
  {
    names, descs, all, cats := LoadItems(src, lang);
    tables, groups, commons, fishings, vegetables, picks, points := LoadDrops(src, all);
    charaNames, charas, params := LoadCharas(src, lang);
    text, shops, mapNames, maps, recipes := LoadWorld(src, lang, all, groups, points, params, tables, picks);
  }

  /** docs/main.ts:440-448: the item names and descriptions, then the
      items of every category of `ITEM_CATEGORIES`. */
  method LoadItems(src: Sources, lang: string)
    returns (names: Table<string, TextData>, descs: Table<string, TextData>, all: Table<string, ItemData>,
             cats: Table<string, Table<string, ItemData>>)
    requires HasField(src.texts(ITEM_NOUN_PATH), "textInfo") && HasField(src.texts(ITEM_TEXT_PATH), "textInfo")
    ensures ItemsLoaded(src, lang, names, descs, all, cats)
    ensures forall x :: x in all.rows.Values ==> fresh(x)
  {
    names := LoadTexts(src.texts(ITEM_NOUN_PATH), "textInfo", NounField(lang));
    descs := LoadTexts(src.texts(ITEM_TEXT_PATH), "textInfo", TextField(lang));
    CategoriesDistinct();
    all, cats := LoadCategories(src, ITEM_CATEGORIES, names, descs);
  }

  /** docs/main.ts:442-448: each category's items, merged into
      `all_items` and recorded under the category in `item_categories`. */
  method LoadCategories(src: Sources, categories: seq<string>, names: Table<string, TextData>,
                        descs: Table<string, TextData>)
    returns (all: Table<string, ItemData>, cats: Table<string, Table<string, ItemData>>)
    requires Distinct(categories)
    ensures CategoriesLoaded(cats, all, categories, src, names, descs)
    ensures forall x :: x in all.rows.Values ==> fresh(x)
  {
    all, cats := Empty(), Empty();
    ghost var tabs: seq<Table<string, ItemData>> := [];
    ghost var made: set<ItemData> := {};
    for i := 0 to |categories|
      invariant |tabs| == i && CategoriesFrom(tabs, categories, src, names, descs)
      invariant forall j :: 0 <= j < i ==> tabs[j].Valid() && tabs[j].rows.Values <= made
      invariant forall x :: x in made ==> fresh(x)
      invariant all == MergeAll(tabs) && cats == Build(categories[..i], tabs)
    {
      all, cats, tabs, made := CategoryStep(src, categories, i, names, descs, all, cats, tabs, made);
    }
    assert categories[..|categories|] == categories;
    CategoriesBuilt(tabs, categories, cats, all, src, names, descs);
    MergeAllWithin(tabs, made);
  }

  /** One turn of the category loop (docs/main.ts:443-447). */
  method CategoryStep(src: Sources, categories: seq<string>, i: nat, names: Table<string, TextData>,
                      descs: Table<string, TextData>, all: Table<string, ItemData>,
                      cats: Table<string, Table<string, ItemData>>, ghost tabs: seq<Table<string, ItemData>>,
                      ghost made: set<ItemData>)
    returns (all': Table<string, ItemData>, cats': Table<string, Table<string, ItemData>>,
             ghost tabs': seq<Table<string, ItemData>>, ghost made': set<ItemData>)
    requires i == |tabs| < |categories| && CategoriesFrom(tabs, categories, src, names, descs)
    requires forall j :: 0 <= j < i ==> tabs[j].Valid() && tabs[j].rows.Values <= made
    requires all == MergeAll(tabs) && cats == Build(categories[..i], tabs)
    ensures |tabs'| == i + 1 && CategoriesFrom(tabs', categories, src, names, descs)
    ensures forall j :: 0 <= j < i + 1 ==> tabs'[j].Valid() && tabs'[j].rows.Values <= made'
    ensures forall x :: x in made' ==> x in made || fresh(x)
    ensures all' == MergeAll(tabs') && cats' == Build(categories[..i + 1], tabs')
  {
    var items := LoadCategory(src.items(categories[i]), names, descs);
    CategoryNext(tabs, categories, src, names, descs, items, all, cats);
    WithinSnoc(tabs, made, items);
    all' := MergeInto(all, items);
    cats' := cats.Set(categories[i], items);
    tabs', made' := tabs + [items], made + items.rows.Values;
  }

  /** docs/main.ts:449-455: the battle item tables against `all_items`,
      their groups against the tables, the common, fishing and vegetable
      params against the groups, the pick params against those three and
      the pick-point groups against the pick params. */
  method LoadDrops(src: Sources, all: Table<string, ItemData>)
    returns (tables: Table<string, ItemTableSetting>, groups: Table<string, ItemTableGroupSetting>,
             commons: Table<string, CommonPickParamData>, fishings: Table<string, CommonPickParamData>,
             vegetables: Table<string, VegetableParamData>, picks: Table<string, PickParamData>,
             points: Table<string, PickPointGroup>)
    modifies all.rows.Values`tables
    ensures DropsLoaded(src, all, tables, groups, commons, fishings, vegetables, picks, points)
    ensures forall g :: g in groups.rows.Values ==> fresh(g)
    ensures forall g :: g in points.rows.Values ==> fresh(g)
  {
    tables, groups := LoadBattleDrops(src, all);
    commons, fishings, vegetables := LoadGatherDrops(src, all, tables, groups);
    picks, points := LoadPickDrops(src, all, tables, groups, commons, fishings, vegetables);
  }

  /** docs/main.ts:449-450: the battle item tables against `all_items`,
      then their groups against the tables. */
  method LoadBattleDrops(src: Sources, all: Table<string, ItemData>)
    returns (tables: Table<string, ItemTableSetting>, groups: Table<string, ItemTableGroupSetting>)
    modifies all.rows.Values`tables
    ensures LoadedFrom(tables, src.itemTables(BATTLE_TABLE_PATH), TableRaw) && TablesHold(tables, all)
    ensures LoadedFrom(groups, src.itemGroups(BATTLE_GROUP_PATH), GroupRaw) && GroupsHold(groups, tables)
    ensures forall g :: g in groups.rows.Values ==> fresh(g)
  {
    tables := LoadTables(src.itemTables(BATTLE_TABLE_PATH), all);
    label Tables:
    groups := LoadGroups(src.itemGroups(BATTLE_GROUP_PATH), tables);
    forall x | x in tables.rows.Values ensures x.Holds(all) {
      assert old@Tables(x.Holds(all));
    }
  }

  /** docs/main.ts:451-453: the common, fishing and vegetable params
      against the groups; the battle tables keep what they hold. */
  method LoadGatherDrops(src: Sources, ghost all: Table<string, ItemData>, ghost tables: Table<string, ItemTableSetting>,
                         groups: Table<string, ItemTableGroupSetting>)
    returns (commons: Table<string, CommonPickParamData>, fishings: Table<string, CommonPickParamData>,
             vegetables: Table<string, VegetableParamData>)
    requires TablesHold(tables, all) && GroupsHold(groups, tables)
    modifies groups.rows.Values`pickParams
    ensures LoadedFrom(commons, src.commonPicks(COMMON_PICK_PATH), CommonRaw) && DropsResolved(commons, groups)
    ensures LoadedFrom(fishings, src.commonPicks(FISHING_PATH), CommonRaw) && DropsResolved(fishings, groups)
    ensures LoadedFrom(vegetables, src.vegetables(VEGETABLE_PATH), VegetableRaw)
    ensures TablesHold(tables, all) && GroupsHold(groups, tables)
    ensures forall c :: c in Drops(commons, fishings) ==> fresh(c)
  {
    commons := LoadCommons(src.commonPicks(COMMON_PICK_PATH), groups);
    fishings := LoadCommons(src.commonPicks(FISHING_PATH), groups);
    vegetables := LoadVegetables(src.vegetables(VEGETABLE_PATH), groups);
  }

  /** docs/main.ts:454-455: the pick params against the common, fishing
      and vegetable params, then the pick-point groups against the pick
      params; the battle tables keep what they hold. */
  method LoadPickDrops(src: Sources, ghost all: Table<string, ItemData>, ghost tables: Table<string, ItemTableSetting>,
                       ghost groups: Table<string, ItemTableGroupSetting>, commons: Table<string, CommonPickParamData>,
                       fishings: Table<string, CommonPickParamData>, vegetables: Table<string, VegetableParamData>)
    returns (picks: Table<string, PickParamData>, points: Table<string, PickPointGroup>)
    requires TablesHold(tables, all) && GroupsHold(groups, tables)
    modifies set c | c in Drops(commons, fishings) :: c`params
    ensures LoadedFrom(picks, src.pickParams(PICK_PARAM_PATH), PickRaw)
    ensures PicksResolved(picks, commons, fishings, vegetables)
    ensures LoadedFrom(points, src.pointGroups(PICK_GROUP_PATH), PointGroupRaw) && PointGroupsHold(points, picks)
    ensures TablesHold(tables, all) && GroupsHold(groups, tables)
    ensures forall g :: g in points.rows.Values ==> fresh(g)
  {
    picks := LoadPicks(src.pickParams(PICK_PARAM_PATH), commons, fishings, vegetables);
    points := LoadPointGroups(src.pointGroups(PICK_GROUP_PATH), picks);
  }

  /** docs/main.ts:456-458: the character names, the characters against
      them and the enemy parameters against the characters. */
  method LoadCharas(src: Sources, lang: string)
    returns (names: Table<string, TextData>, charas: Table<string, CharaData>, params: Table<string, CharaParameter>)
    requires HasField(src.texts(CHARA_NOUN_PATH), "textInfo")
    ensures CharasLoaded(src, lang, names, charas, params)
    ensures forall p :: p in params.rows.Values ==> fresh(p)
  {
    names := LoadTexts(src.texts(CHARA_NOUN_PATH), "textInfo", NounField(lang));
    charas := LoadCharaTable(src.charas(CHARA_PATH), names);
    params := LoadParams(src.charaParams(ENEMY_PARAM_PATH), charas);
  }

  /** docs/main.ts:459-463: the menu text, the shops against it and
      `all_items`, the map names, the maps against those and the pick,
      enemy, drop and shop tables, and the recipes against `all_items`. */
  method LoadWorld(src: Sources, lang: string, all: Table<string, ItemData>,
                   drops: Table<string, ItemTableGroupSetting>, points: Table<string, PickPointGroup>,
                   params: Table<string, CharaParameter>, ghost tables: Table<string, ItemTableSetting>,
                   ghost picks: Table<string, PickParamData>)
    returns (text: Table<string, TextData>, shops: Table<string, ShopData>, names: Table<string, TextData>,
             maps: Table<string, MapData>, recipes: Table<string, RecipeData>)
    requires HasField(src.texts(MENU_TEXT_PATH), "textInfo") && HasField(src.texts(MAP_NOUN_PATH), "nounInfo")
    requires DropsHeld(all, tables, drops, picks, points)
    modifies all.rows.Values`shops
    modifies all.rows.Values`createdBy
    modifies all.rows.Values`materialFor
    modifies points.rows.Values`maps
    modifies params.rows.Values`enemies
    modifies drops.rows.Values`enemies
    ensures WorldLoaded(src, lang, all, text, shops, names, maps, recipes) && MapsHeld(src, points, maps)
    ensures DropsHeld(all, tables, drops, picks, points)
  {
    text, shops := LoadShops(src, lang, all, tables, drops, picks, points);
    names, maps := LoadMaps(src, lang, all, text, tables, picks, points, params, drops, shops);
    recipes := LoadRecipes(src, lang, all, text, shops, tables, drops, picks, points, maps);
  }

  /** docs/main.ts:459-460: the menu text, then the shops against it and
      `all_items`; the drop tables keep what they hold. */
  method LoadShops(src: Sources, lang: string, all: Table<string, ItemData>,
                   ghost tables: Table<string, ItemTableSetting>, ghost groups: Table<string, ItemTableGroupSetting>,
                   ghost picks: Table<string, PickParamData>, ghost points: Table<string, PickPointGroup>)
    returns (text: Table<string, TextData>, shops: Table<string, ShopData>)
    requires HasField(src.texts(MENU_TEXT_PATH), "textInfo")
    requires DropsHeld(all, tables, groups, picks, points)
    modifies all.rows.Values`shops
    ensures ShopsLoaded(src, lang, all, text, shops)
    ensures DropsHeld(all, tables, groups, picks, points)
    ensures forall s :: s in shops.rows.Values ==> fresh(s)
  {
    text := LoadTexts(src.texts(MENU_TEXT_PATH), "textInfo", TextField(lang));
    shops := LoadShopTable(src.shops(SHOP_PATH), text, all);
  }

  /** docs/main.ts:461-462: the map names, then the maps against them and
      the pick-point, enemy, drop and shop tables; the shops and the drop
      tables keep what they hold. */
  method LoadMaps(src: Sources, lang: string, ghost all: Table<string, ItemData>, ghost text: Table<string, TextData>,
                  ghost tables: Table<string, ItemTableSetting>, ghost picks: Table<string, PickParamData>,
                  points: Table<string, PickPointGroup>, params: Table<string, CharaParameter>,
                  drops: Table<string, ItemTableGroupSetting>, shops: Table<string, ShopData>)
    returns (names: Table<string, TextData>, maps: Table<string, MapData>)
    requires HasField(src.texts(MAP_NOUN_PATH), "nounInfo")
    requires ShopsLoaded(src, lang, all, text, shops) && DropsHeld(all, tables, drops, picks, points)
    modifies points.rows.Values`maps
    modifies params.rows.Values`enemies
    modifies drops.rows.Values`enemies
    modifies shops.rows.Values`maps
    ensures PlacesLoaded(src, lang, names, maps) && MapsHeld(src, points, maps)
    ensures ShopsLoaded(src, lang, all, text, shops) && DropsHeld(all, tables, drops, picks, points)
  {
    names := LoadTexts(src.texts(MAP_NOUN_PATH), "nounInfo", NounField(lang));
    maps := LoadMapTable(src.maps(MAP_PATH), names, src.mapFiles, points, params, drops, shops);
  }

  /** docs/main.ts:463: the recipes against `all_items`; the shops, the
      maps and the drop tables keep what they hold. */
  method LoadRecipes(src: Sources, lang: string, all: Table<string, ItemData>, ghost text: Table<string, TextData>,
                     ghost shops: Table<string, ShopData>, ghost tables: Table<string, ItemTableSetting>,
                     ghost groups: Table<string, ItemTableGroupSetting>, ghost picks: Table<string, PickParamData>,
                     ghost points: Table<string, PickPointGroup>, ghost maps: Table<string, MapData>)
    returns (recipes: Table<string, RecipeData>)
    requires ShopsLoaded(src, lang, all, text, shops) && MapsHeld(src, points, maps)
    requires DropsHeld(all, tables, groups, picks, points)
    modifies all.rows.Values`createdBy
    modifies all.rows.Values`materialFor
    ensures RecipesLoaded(src, all, recipes)
    ensures ShopsLoaded(src, lang, all, text, shops) && MapsHeld(src, points, maps)
    ensures DropsHeld(all, tables, groups, picks, points)
  {
    recipes := LoadRecipesKeepingMaps(src, all, tables, groups, picks, points, maps);
  }

  /** `LoadRecipeTable`, with the maps and the drop tables keeping what
      they hold. */
  method LoadRecipesKeepingMaps(src: Sources, all: Table<string, ItemData>,
                                ghost tables: Table<string, ItemTableSetting>,
                                ghost groups: Table<string, ItemTableGroupSetting>,
                                ghost picks: Table<string, PickParamData>, ghost points: Table<string, PickPointGroup>,
                                ghost maps: Table<string, MapData>)
    returns (recipes: Table<string, RecipeData>)
    requires MapsHeld(src, points, maps) && DropsHeld(all, tables, groups, picks, points)
    modifies all.rows.Values`createdBy
    modifies all.rows.Values`materialFor
    ensures RecipesLoaded(src, all, recipes)
    ensures MapsHeld(src, points, maps) && DropsHeld(all, tables, groups, picks, points)
  {
    recipes := LoadRecipesKeepingDrops(src, all, tables, groups, picks, points);
  }

  /** `LoadRecipeTable`, with the drop tables keeping what they hold. */
  method LoadRecipesKeepingDrops(src: Sources, all: Table<string, ItemData>,
                                 ghost tables: Table<string, ItemTableSetting>,
                                 ghost groups: Table<string, ItemTableGroupSetting>,
                                 ghost picks: Table<string, PickParamData>, ghost points: Table<string, PickPointGroup>)
    returns (recipes: Table<string, RecipeData>)
    requires DropsHeld(all, tables, groups, picks, points)
    modifies all.rows.Values`createdBy
    modifies all.rows.Values`materialFor
    ensures RecipesLoaded(src, all, recipes)
    ensures DropsHeld(all, tables, groups, picks, points)
  {
    recipes := LoadRecipeTable(src.recipes(RECIPE_PATH), all);
  }

  // ---------------------------------------------------------------------
  // The loaders as `GameData.load` calls them, each giving the keys of
  // its document and what its rows resolved

  method LoadTexts(resp: Response<TextRow>, textField: string, langField: string) returns (t: Table<string, TextData>)
    requires HasField(resp, textField)
    ensures LoadedFrom(t, resp, TextRaw) && Texts(t, textField, langField)
  {
    ghost var rows;
    t, rows := TextData.Load(resp, textField, langField);
    BuildLoadedFrom(resp, rows, TextRaw);
  }

  method LoadCategory(resp: Response<ItemRow>, names: Table<string, TextData>, descs: Table<string, TextData>)
    returns (t: Table<string, ItemData>)
    ensures LoadedFrom(t, resp, ItemRaw) && ItemsNamed(t, names, descs)
    ensures forall x :: x in t.rows.Values ==> fresh(x)
  {
    ghost var rows;
    t, rows := ItemData.Load(resp, names, descs);
    BuildLoadedFrom(resp, rows, ItemRaw);
  }

  method LoadTables(resp: Response<TableRow>, items: Table<string, ItemData>)
    returns (t: Table<string, ItemTableSetting>)
    modifies items.rows.Values`tables
    ensures LoadedFrom(t, resp, TableRaw) && TablesHold(t, items)
    ensures forall x :: x in t.rows.Values ==> fresh(x)
  {
    ghost var rows, kids, details;
    t, rows, kids, details := ItemTableSetting.Load(resp, items);
    BuildLoadedFrom(resp, rows, TableRaw);
  }

  method LoadGroups(resp: Response<GroupRow>, tables: Table<string, ItemTableSetting>)
    returns (t: Table<string, ItemTableGroupSetting>)
    modifies tables.rows.Values`groups
    ensures LoadedFrom(t, resp, GroupRaw) && GroupsHold(t, tables)
    ensures forall g :: g in t.rows.Values ==> fresh(g)
  {
    ghost var rows, kids, entries;
    t, rows, kids, entries := ItemTableGroupSetting.Load(resp, tables);
    BuildLoadedFrom(resp, rows, GroupRaw);
  }

  method LoadCommons(resp: Response<CommonPickRow>, groups: Table<string, ItemTableGroupSetting>)
    returns (t: Table<string, CommonPickParamData>)
    modifies groups.rows.Values`pickParams
    ensures LoadedFrom(t, resp, CommonRaw) && DropsResolved(t, groups)
    ensures forall c :: c in t.rows.Values ==> fresh(c)
  {
    ghost var rows;
    t, rows := CommonPickParamData.Load(resp, groups);
    BuildLoadedFrom(resp, rows, CommonRaw);
  }

  method LoadVegetables(resp: Response<VegetableRow>, groups: Table<string, ItemTableGroupSetting>)
    returns (t: Table<string, VegetableParamData>)
    ensures LoadedFrom(t, resp, VegetableRaw)
  {
    ghost var rows;
    t, rows := VegetableParamData.Load(resp, groups);
    BuildLoadedFrom(resp, rows, VegetableRaw);
  }

  method LoadPicks(resp: Response<PickParamRow>, commons: Table<string, CommonPickParamData>,
                   fishings: Table<string, CommonPickParamData>, vegetables: Table<string, VegetableParamData>)
    returns (t: Table<string, PickParamData>)
    modifies set c | c in Drops(commons, fishings) :: c`params
    ensures LoadedFrom(t, resp, PickRaw) && PicksResolved(t, commons, fishings, vegetables)
    ensures forall p :: p in t.rows.Values ==> fresh(p)
  {
    ghost var rows;
    t, rows := PickParamData.Load(resp, commons, fishings, vegetables);
    BuildLoadedFrom(resp, rows, PickRaw);
  }

  method LoadPointGroups(resp: Response<PointGroupRow>, params: Table<string, PickParamData>)
    returns (t: Table<string, PickPointGroup>)
    modifies params.rows.Values`groups
    ensures LoadedFrom(t, resp, PointGroupRaw) && PointGroupsHold(t, params)
    ensures forall g :: g in t.rows.Values ==> fresh(g)
  {
    ghost var rows, kids, entries;
    t, rows, kids, entries := PickPointGroup.Load(resp, params);
    BuildLoadedFrom(resp, rows, PointGroupRaw);
  }

  method LoadCharaTable(resp: Response<CharaRow>, names: Table<string, TextData>)
    returns (t: Table<string, CharaData>)
    ensures LoadedFrom(t, resp, CharaRaw) && CharasNamed(t, names)
    ensures forall c :: c in t.rows.Values ==> fresh(c)
  {
    ghost var rows;
    t, rows := CharaData.Load(resp, names);
    BuildLoadedFrom(resp, rows, CharaRaw);
  }

  method LoadParams(resp: Response<CharaParamRow>, charas: Table<string, CharaData>)
    returns (t: Table<string, CharaParameter>)
    modifies charas.rows.Values`params
    ensures LoadedFrom(t, resp, ParamRaw) && ParamsResolved(t, charas)
    ensures forall p :: p in t.rows.Values ==> fresh(p)
  {
    ghost var rows;
    t, rows := CharaParameter.Load(resp, charas);
    BuildLoadedFrom(resp, rows, ParamRaw);
  }

  method LoadShopTable(resp: Response<ShopRow>, text: Table<string, TextData>, items: Table<string, ItemData>)
    returns (t: Table<string, ShopData>)
    modifies items.rows.Values`shops
    ensures LoadedFrom(t, resp, ShopRaw) && ShopsNamed(t, text) && ShopsHold(t, items)
    ensures forall s :: s in t.rows.Values ==> fresh(s)
  {
    ghost var rows, kids, entries;
    t, rows, kids, entries := ShopData.Load(resp, text, items);
    BuildLoadedFrom(resp, rows, ShopRaw);
  }

  method LoadMapTable(resp: Response<MapRow>, names: Table<string, TextData>, files: MapFiles,
                      groups: Table<string, PickPointGroup>, params: Table<string, CharaParameter>,
                      drops: Table<string, ItemTableGroupSetting>, shops: Table<string, ShopData>)
    returns (t: Table<string, MapData>)
    modifies set x | x in groups.rows.Values :: x`maps
    modifies set x | x in params.rows.Values :: x`enemies
    modifies set x | x in drops.rows.Values :: x`enemies
    modifies set x | x in shops.rows.Values :: x`maps
    ensures LoadedFrom(t, resp, MapRaw) && MapsNamed(t, names)
    ensures forall m :: m in t.rows.Values ==> m.Held(files, groups)
    ensures forall g :: g in groups.rows.Values ==> g.data == old(g.data)
    ensures forall d :: d in drops.rows.Values ==> d.data == old(d.data)
    ensures forall s :: s in shops.rows.Values ==> s.items == old(s.items)
  {
    ghost var rows, kids, points, placements, infos;
    t, rows, kids, points, placements, infos := MapData.Load(resp, names, files, groups, params, drops, shops);
    BuildLoadedFrom(resp, rows, MapRaw);
    InitialsHeld(t, rows, Entries(resp), names, files, Targets(groups, params, drops, shops), kids);
  }

  /** Maps each in the state their creation leaves them hold their three
      tables, and so does every map a table keeps of them. */
  lemma InitialsHeld(t: Table<string, MapData>, rows: seq<MapData>, es: seq<Entry<MapRow>>,
                     names: Table<string, TextData>, files: MapFiles, tg: Targets, kids: seq<MapKids>)
    requires |rows| == |es| && |kids| == |rows|
    requires forall i :: 0 <= i < |rows| ==> rows[i].Initial(es[i].value, names, files, tg, kids[i])
    requires forall m :: m in t.rows.Values ==> m in rows
    ensures forall m :: m in t.rows.Values ==> m.Held(files, tg.groups)
  {
    forall m | m in t.rows.Values ensures m.Held(files, tg.groups) {
      var i :| 0 <= i < |rows| && rows[i] == m;
      m.InitialHeld(es[i].value, names, files, tg, kids[i]);
    }
  }

  method LoadRecipeTable(resp: Response<RecipeRow>, items: Table<string, ItemData>)
    returns (t: Table<string, RecipeData>)
    modifies items.rows.Values`createdBy
    modifies items.rows.Values`materialFor
    ensures LoadedFrom(t, resp, RecipeRaw) && RecipesResolved(t, items) && RecipesHold(t, items)
  {
    ghost var rows, kids, materials;
    t, rows, kids, materials := RecipeData.Load(resp, items);
    BuildLoadedFrom(resp, rows, RecipeRaw);
  }
}
