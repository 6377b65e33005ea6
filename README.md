# Game-data loader: keyed tables and back-references

This project is a Dafny model of the layer of the game-data browser that
loads the exported game tables and links them together. A table document
holds its rows under `[0].Properties.m_dataMap`. `loadData` turns each
such document into an ordered map from key to constructed row.
`getProperty` resolves a reference key against such a map: the sentinel
`'None'` and a missing key both give null. Each entity loader resolves a
row's forward references that way. When a reference resolves, the loader
appends the new row, or its child rows, to a list on the target, which an
earlier loader built. `GameData.load` runs the loaders in a fixed
dependency order. It merges the eleven per-category item tables into
`all_items`, and a later category wins on a shared id.

Two revisions are modelled:

- `docs/main.ts`, the current source. Modules `Tables`, `Rows`,
  `Entities` and `Orchestrator`.
- `docs/main.js`, the compiled output of an older revision. Module
  `Legacy`. Its `loadData` keys each row by `entry.Key` as parsed,
  without reducing a structured key to its `Name`.

Modules:

- `Tables`:
  - keys, documents and responses;
  - `Table<K, T>`, a JavaScript `Map` as a key order plus a `map`;
  - `Build`, the specification of a `result.set` loop;
  - `LoadData` and `GetProperty`;
  - `Linked`, the specification of a back-reference list;
  - `Merge`/`MergeAll`, the specification of copying tables into one.
- `Rows`: the JSON rows, with only the fields the loaders read. The rest
  of `raw` is an uninterpreted `Payload`.
- `Entities`: one class per entity of `main.ts`. Each loader is a static
  `Load` method. It creates the rows in entry order (`CreateAll`), then
  keys them with `Tables.LoadData`. Each back-reference list is a `seq`
  field, stated as its old value followed by the `Linked` filter of the
  rows created.
- `Orchestrator`: `GameData.load` of `main.ts`, including the category
  loop and the properties of `all_items`.
- `Legacy`: the whole of `main.js`, built on the same rows and documents.
  Its tables are keyed by `JsKey`, the key as parsed.

The pick-param loader pushes a resolved `fishing` param twice. The second
guard tests `param.fishing` where `param.vegetable` was presumably meant.
Both revisions do this, and the model reproduces it, with the
number of pushes proved (`PickAppendsCount`).

## Model

| member | source | states |
|---|---|---|
| Tables.Entries | docs/main.ts:7-11 | A failed fetch, a document without `Properties`, and one without `m_dataMap` all give no entries. Otherwise the entries are those of `m_dataMap`. |
| Tables.NormalKeysAt | docs/main.ts:1-3 | The key of entry `i` is the string as is when the key is a string, and its `Name` otherwise. |
| Tables.NormalKeys | docs/main.ts:12-13 | One key per entry. |
| Tables.LoadData | docs/main.ts:5-19 | The loop returns exactly `Build` of the normalised keys and the rows constructed in entry order. |
| Tables.LoadEmpty | docs/main.ts:8-11 | A failed fetch or a missing `Properties`/`m_dataMap` gives the empty map. |
| Tables.BuildKeys | docs/main.ts:12-15 | The loaded map is well formed. It holds a key exactly when some entry has that key. |
| Tables.BuildHas | docs/main.ts:12-15 | A key is present exactly when some entry carries it. |
| Tables.BuildOrder | docs/main.ts:12-15 | The map's key order is the entries' keys, each at its first occurrence. |
| Tables.BuildLastWins | docs/main.ts:14 | A key repeated in the document holds the row of its last entry. |
| Tables.BuildFirstPosition | docs/main.ts:14 | A repeated key keeps its first position: first occurrences keep their relative order. |
| Tables.BuildLoaded | docs/main.ts:12-15 | The loaded table has exactly the document's keys, in first-occurrence order, and holds only rows constructed for it. |
| Tables.BuildValues | docs/main.ts:14 | Every value in the map is one of the constructed rows. |
| Tables.BuildDistinctOrder | docs/main.ts:12-15 | With distinct keys, the order is exactly the entries' key order. |
| Tables.KeyOrderDistinct | docs/main.ts:12-15 | First-occurrence order of distinct keys is the keys themselves. |
| Tables.GetProperty | docs/main.ts:21-23 | `'None'` gives null. An absent key gives null. Otherwise the result is the stored row, so any non-null result comes from the map. |
| Tables.ResolveLoaded | docs/main.ts:12-23 | In a loaded table, a reference to a key other than `'None'` resolves to the row of that key's last entry. |
| Tables.ResolveMissing | docs/main.ts:21-23 | A reference that is `'None'` or matches no entry resolves to null. |
| Tables.LastValue | docs/main.ts:12-15 | The row the loop leaves under a key exists exactly when some entry has that key. |
| Tables.LastValueAt | docs/main.ts:14 | For an entry no later entry shares a key with, the row under its key is built from that entry. |
| Tables.BuildFrom | docs/main.ts:12-15 | When every row is built from its own entry, the row kept under each key is built from the last entry with that key. |
| Tables.BuildLoadedFrom | docs/main.ts:5-19 | A table `loadData` builds holds the document's keys in first-occurrence order, each with the row of its last entry, and only rows built for it. |
| Tables.KeyOrderHas | docs/main.ts:12-15 | A key is in the first-occurrence order exactly when some entry has it. |
| Tables.LookupFrom | docs/main.ts:12-23 | Against a table loaded from a document, `getProperty` gives null exactly when the key is `'None'` or no entry has it. Otherwise it gives the row built from the last entry with that key. |
| Tables.Set | docs/main.ts:14 | `Map.set` replaces the key's row, and keeps the table well formed. |
| Tables.Empty | docs/main.ts:6 | `new Map()` is well formed and has no rows. |
| Tables.LinkedMembers | docs/main.ts:67-74 | A back-reference list built from rows holds exactly the rows whose reference resolved to that target. |
| Tables.LinkedOnce | docs/main.ts:67-74 | Among distinct rows, each row that resolves to a target is on the target's list exactly once, and each other row is absent from it. |
| Tables.LinkedAppend | docs/main.ts:84 | Appending in two batches gives the list of both batches concatenated, order preserved. |
| Tables.FlattenDistinct | docs/main.ts:84 | The child rows of distinct parents, each set distinct and owned by its parent, are distinct together, and each is owned by one of the parents. |
| Tables.MergeRows | docs/main.ts:446 | Copying a table into another with `set` gives the union of their rows, with the copied table's rows winning, and extends the key order. |
| Tables.MergeInto | docs/main.ts:446 | The `forEach` copy loop computes `Merge`. |
| Tables.MergeAllLast | docs/main.ts:444-447 | The in-order merge holds a key exactly when some table does, with the row of the last table that has it. |
| Tables.MergeAllValues | docs/main.ts:444-447 | Every merged row comes from one of the tables. |
| Tables.MergeAllSnoc | docs/main.ts:446 | Merging one more table is one more copy. |
| Entities.TextOf | docs/main.ts:39 | The text is null when the text array is empty. Otherwise it is element 0's language field, or null when that field is absent. |
| Entities.TextData.Load | docs/main.ts:36-42 | The table is `Build` of the document's keys and one new text row per entry, in entry order. Each row holds its raw row and `TextOf` it. |
| Entities.ItemData.Load | docs/main.ts:53-60 | One new item per entry, in entry order. Each holds `getProperty` of its `nameId` and `DescId`, and starts with empty back-reference lists. |
| Entities.ItemTableDetail.constructor | docs/main.ts:67-74 | The detail stores its owning table and the resolved item. The resolved item's `tables` list gains this detail once, and every other item is unchanged. |
| Entities.ItemTableSetting.Load | docs/main.ts:81-87 | One new setting per entry, each owning one new detail per `tableData` row. Every item's `tables` list is its old value followed by the details that resolve to it, in document order. |
| Entities.ItemTableGroupData.constructor | docs/main.ts:94-101 | The entry stores its owning group and the resolved table, and is appended once to that table's `groups` list. |
| Entities.ItemTableGroupSetting.Load | docs/main.ts:110-116 | Every table's `groups` list is its old value followed by the group entries that resolve to it, in order. |
| Entities.CommonPickParamData.Load | docs/main.ts:123-132 | Each param resolves `Drop.tableGroupId`. Every group's `pickParams` list gains exactly the params that resolve to it, in order. |
| Entities.VegetableParamData.Load | docs/main.ts:139-144 | One new param per entry, with an empty `params` list. No drop is resolved and nothing else changes. |
| Entities.PickParamData.Load | docs/main.ts:154-176 | Each param resolves `common`, `fishing` and `vegetable`. Each common or fishing param's list gains `Pushes` of each new pick param in order. Every vegetable list is unchanged. |
| Entities.Pushes | docs/main.ts:162-173 | A pick param is pushed to a target once when it is its `common`, and twice more when it is its `fishing`. |
| Entities.PickAppendsCount | docs/main.ts:162-173 | Over distinct pick params, the target's list holds each param once per `common` match plus twice per `fishing` match. |
| Entities.PushesCount | docs/main.ts:162-173 | The number of times one push lists a param. |
| Entities.PickPointGroupData.constructor | docs/main.ts:183-190 | The entry stores its group and the resolved pick param, and is appended once to that param's `groups` list. |
| Entities.PickPointGroup.Load | docs/main.ts:197-203 | Every pick param's `groups` list is its old value followed by the entries that resolve to it, in order. |
| Entities.MapPickPoint.Load | docs/main.ts:210-220 | Each point stores its map and resolves `groupId`. Every group's `maps` list gains the points that resolve to it, in order. |
| Entities.CharaData.Load | docs/main.ts:227-233 | Each chara holds the name `getProperty` finds for it. |
| Entities.CharaParameter.Load | docs/main.ts:240-249 | Each parameter resolves its chara, and every chara's `params` list gains the parameters that resolve to it. |
| Entities.ShopItemInfo.constructor | docs/main.ts:256-263 | The info stores its shop and the resolved item, and is appended once to that item's `shops` list. |
| Entities.ShopData.Load | docs/main.ts:271-278 | Each shop owns one new info per `itemInfoList` row. Every item's `shops` list gains the infos that resolve to it, in order. |
| Entities.MapShopConfigInfo.constructor | docs/main.ts:285-292 | The info stores its config and the resolved shop, and is appended once to that shop's `maps` list. |
| Entities.MapShopConfig.Load | docs/main.ts:299-306 | Each config stores its map and owns one info per `shopInfoArray` row. Every shop's `maps` list gains the infos that resolve to it. |
| Entities.EnemyPlacementConfig.constructor | docs/main.ts:314-325 | The placement resolves `paramId.Name` and `Drop.itemData.tableGroupId`. It is appended to the param's and the drop's `enemies` lists, independently, each only when resolved. |
| Entities.EnemyGroupConfig.Load | docs/main.ts:332-344 | Every parameter's and every drop group's `enemies` lists gain exactly the placements that resolve to them, in order. |
| Entities.MapData.LoadPoints | docs/main.ts:364 | The map's pick points are loaded from `GameData/Map/{mapId}/{mapId}_GDSMapPickPoint.json`, after the map was named. Each new point is on this map, and every group's `maps` list grows by the points that resolve to it. |
| Entities.MapData.LoadEnemies | docs/main.ts:365 | The map's enemy groups are loaded from the map's enemy-placement document. |
| Entities.MapData.LoadShops | docs/main.ts:366 | The map's shop configs are loaded from the map's shop-config document. |
| Entities.MapData.LoadRest | docs/main.ts:365-366 | After the pick points, the enemy groups and then the shop configs are loaded from the map's documents, and the targets' lists grow by their placements and infos. The pick-point groups' `maps` lists are left as they are. |
| Entities.MapData.Fill | docs/main.ts:364-366 | The three loads of the row callback leave the map holding its three tables, their children owned by this map, and every target's list extended by exactly those children. |
| Entities.MapData.InitialHeld | docs/main.ts:362-366 | A map as its callback leaves it holds, per table, its document's keys, each with a child built from the key's last entry, each child on this map, and each pick point resolved against the pick groups. |
| Entities.MapData.MakeAll | docs/main.ts:362-363 | One new, distinct map per entry, in entry order, holding its row and the name `getProperty` finds for `mapName`. |
| Entities.MapData.CreateAll | docs/main.ts:361-367 | Every map is new, made from its entry and left as its callback leaves it. Its children are distinct and owned by it. Every target's list is its old value followed by the children of all maps that resolve to it, in map order. |
| Entities.MapData.Load | docs/main.ts:353-369 | The table has the map document's keys, one new map per entry. Each map is named by `getProperty` of its `mapName`. It holds its pick-point, enemy-group and shop-config tables, each keyed from its own `mapId` document, with every child made from its entry, owned by the map and resolved against the targets. Every pick group's `maps`, parameter's and drop's `enemies` and shop's `maps` list is its old value followed by the children that resolve to it, in map order. All the maps and children are new and distinct. |
| Entities.RecipeItemInfo.constructor | docs/main.ts:376-383 | The info stores its recipe and the resolved item, and is appended once to that item's `material_for` list. |
| Entities.RecipeData.Load | docs/main.ts:390-400 | Each recipe resolves `ItemId` and is appended to that item's `created_by` list before its `item_list` is built. Every item's `material_for` list gains the infos that resolve to it. |
| Orchestrator.CategoriesMerged | docs/main.ts:444-447 | When each category maps to its own table, `all_items` is their in-order merge. |
| Orchestrator.AllItemsLastWins | docs/main.ts:442-448 | `all_items` holds an id exactly when some category table does. It then holds that id's item from the last category, in `ITEM_CATEGORIES` order, that has the id. |
| Orchestrator.CategoriesBuilt | docs/main.ts:444-448 | After the loop, `item_categories` has exactly the `ITEM_CATEGORIES` keys, in order. Each maps to a table holding that category's document's keys, each with the item built from the key's last entry and named and described through `getProperty`. `all_items` is their in-order merge. |
| Orchestrator.CategoriesDistinct | docs/main.ts:403-415 | The eleven category names are distinct. |
| Orchestrator.LoadCategories | docs/main.ts:442-448 | The category loop leaves `item_categories` and `all_items` as `CategoriesBuilt` describes them, with every item new. |
| Orchestrator.LoadItems | docs/main.ts:440-448 | `item_names` and `item_descs` are loaded from their documents. Each row is built from its key's last entry, with its text read from `textInfo` in the language's noun or text field. Then the categories are loaded as `CategoriesBuilt` describes. |
| Orchestrator.LoadAll | docs/main.ts:440-463 | Every table holds the keys of its fixed-path document, each with the row built from the key's last entry, and resolves its references against the tables loaded before it. The battle tables, their groups and the pick-point groups hold the entries each made from its own rows when loaded (`DropsHeld`), the shops their item infos and the recipes their item lists. Every map holds the pick-point, enemy-group and shop-config tables of its own documents. |
| Orchestrator.LoadDrops | docs/main.ts:449-455 | The battle item tables, their groups, the common, fishing and vegetable params, the pick params and the pick-point groups are each loaded from their document, each resolved against the tables before it. At the end the battle tables, their groups and the pick-point groups still hold the entries made from their rows, resolved against the tables before them. |
| Orchestrator.LoadBattleDrops | docs/main.ts:449-450 | The battle tables are loaded against `all_items`, each holding a detail per `tableData` row. Then their groups are loaded against them, and loading the groups leaves the tables' details unchanged. |
| Orchestrator.LoadGatherDrops | docs/main.ts:451-453 | The common, fishing and vegetable params are loaded from their documents, the first two resolved against the groups. The battle tables and groups keep their entries. |
| Orchestrator.LoadPickDrops | docs/main.ts:454-455 | The pick params are resolved against the common, fishing and vegetable params. The pick-point groups are resolved against the pick params, each holding an entry per `groupData` row. The battle tables and groups keep their entries. |
| Orchestrator.LoadCharas | docs/main.ts:456-458 | The character names, the characters named through them and the enemy parameters resolved against the characters are each loaded from their document. |
| Orchestrator.LoadWorld | docs/main.ts:459-463 | The menu text, the shops named through it, the map names, the maps and the recipes are each loaded from their document. The shops hold their item infos and the recipes their item lists. Every map then still holds its three tables, and the drop tables loaded before keep their entries. |
| Orchestrator.LoadShops | docs/main.ts:459-460 | The menu text, then the shops named through it, each holding an info per `itemInfoList` row resolved against `all_items`. The drop tables keep their entries. |
| Orchestrator.LoadMaps | docs/main.ts:461-462 | The map names, then the maps named through them, each holding the three tables of its own documents. The shops keep their infos and the drop tables their entries. |
| Orchestrator.LoadRecipes | docs/main.ts:463 | The recipes are loaded against `all_items`, each holding its item list. The shops, the maps' tables and the drop tables keep what they hold. |
| Orchestrator.LoadRecipesKeepingMaps | docs/main.ts:463 | Loading the recipes leaves every map holding its three tables, and the drop tables their entries. |
| Orchestrator.LoadRecipesKeepingDrops | docs/main.ts:463 | Loading the recipes leaves the battle tables, their groups and the pick-point groups holding their entries. |
| Orchestrator.InitialsHeld | docs/main.ts:361-367 | When every map of the table is as its row callback left it, every map holds the three tables of its own documents, with its pick points resolved against `pick_groups`. |
| Orchestrator.LoadMapTable | docs/main.ts:462 | The map table holds the map document's keys, each map named and holding the three tables of its own documents, with its pick points resolved against `pick_groups`. |
| Orchestrator.GameData.Load | docs/main.ts:438-465 | A new `GameData` holds every table. Each has its document's keys, each key with the row built from its last entry, and is resolved against the tables before it. The battle tables, their groups and the pick-point groups hold the entries each made from its own rows when loaded (`DropsHeld`), the shops their item infos and the recipes their item lists. Every map of `map_data` holds the three tables of its own documents. |
| Orchestrator.ItemFromCategory | docs/main.ts:442-448 | An item of `all_items` is built from the last entry with its id in some category's document, and is named and described through `getProperty`. |
| Orchestrator.TextFrom | docs/main.ts:36-42 | Resolving a key in a loaded text table gives null exactly when the key is `'None'` or absent from the document. Otherwise it gives the row of its last entry, with that row's text. |
| Orchestrator.ItemNamedByNoun | docs/main.ts:440-448 | An item of the loaded `all_items` comes from some category's document. Its name is null exactly when its `nameId` is `'None'` or absent from the noun document. Otherwise it is the noun row of that id's last entry, with its text in the language loaded. |
| Orchestrator.ShopNamedByText | docs/main.ts:271-278 | A loaded shop is built from its key's last entry. Its name is null exactly when `buyShopNameIdArray` is empty, or its first id is `'None'` or absent from the menu text. Otherwise it is the menu-text row of that id's last entry, with its text. |
| Legacy.JsKeysAt | docs/main.js:9 | Entry `i` of a document is stored under its key as parsed: the string itself, or the object parsed from entry `i` of that document, which no other entry of any document is. |
| Legacy.LoadRaw | docs/main.js:1-14 | The older loop sets each constructed row under `entry.Key` verbatim, in entry order. |
| Legacy.KeysBuilt | docs/main.js:3-13 | The loaded map is well formed, keyed in first-occurrence order, and holds only constructed rows. A failed fetch or a missing `m_dataMap` gives the empty map. |
| Legacy.KeysBuiltFrom | docs/main.js:1-14 | The older loader's table holds the keys as parsed, in first-occurrence order, each with the row built from its last entry, and only rows built for it. |
| Legacy.ObjectKeysKept | docs/main.js:9 | A row with a structured key is kept, under the object parsed from its entry of its document. |
| Legacy.ObjectKeyLoaded | docs/main.js:8-10 | In a loaded table, an entry with a structured key holds the row built from that entry. |
| Legacy.ObjectKeyOwn | docs/main.js:8-10 | Every structured key of a loaded table is an object of that table's own document. |
| Legacy.Resolve | docs/main.js:15-17 | `'None'` and an absent key give null. Otherwise the result is the row stored under that string. |
| Legacy.LastStringIndex | docs/main.js:8-10 | The position, if any, is that of an entry keyed by the string `prop`, and no later entry has that key; -1 means there is none. |
| Legacy.LastStringRow | docs/main.js:8-10 | There is no such row exactly when no entry has the string key `prop`. |
| Legacy.LastStringRowIs | docs/main.js:8-10 | When there is one, it is the row of the last entry keyed by the string `prop`. |
| Legacy.LookupBuilt | docs/main.js:8-10 | Looking up a string in the older loader's map finds the row of the last entry with exactly that string key. |
| Legacy.ResolveBuilt | docs/main.js:8-17 | A reference resolves to null for `'None'`. Otherwise it resolves to the last entry keyed by exactly that string. A structured key is never what it resolves to. |
| Legacy.RevisionsAgree | docs/main.js:9 | When every key is a string, both revisions resolve every reference to the same row. |
| Legacy.StructuredKeyDiverges | docs/main.js:9 | For a structured key with `Name` `n`, the newer loader resolves `n` and the older one gives null. |
| Legacy.TextOf | docs/main.js:27 | The text is element 0's language field, read without checking that the array is non-empty. It is null only when that field is absent. |
| Legacy.TextAgrees | docs/main.js:27 | Where the array is non-empty, both revisions read the same text. |
| Legacy.TextData.Load | docs/main.js:24-30 | One new text row per entry, each holding `TextOf` of its raw row, keyed as parsed. |
| Legacy.ItemData.Load | docs/main.js:37-44 | Each item holds `getProperty` of its `nameId` and `DescId` and an empty `tables` list. |
| Legacy.ItemTableDetail.constructor | docs/main.js:47-54 | The detail stores its table and the resolved item, and is appended once to that item's `tables` list. |
| Legacy.ItemTableSetting.Load | docs/main.js:61-67 | Every item's `tables` list is its old value followed by the details that resolve to it, in order. |
| Legacy.ItemTableGroupData.constructor | docs/main.js:70-77 | The entry stores its group and the resolved table, and is appended once to that table's `groups` list. |
| Legacy.ItemTableGroupSetting.Load | docs/main.js:85-91 | Every table's `groups` list gains the entries that resolve to it, in order. |
| Legacy.CommonPickParamData.Load | docs/main.js:98-107 | Each param resolves its drop group, and every group's `pickParams` list gains those that resolve to it. |
| Legacy.VegetableParamData.Load | docs/main.js:115-120 | One new vegetable param per entry, with an empty `params` list. |
| Legacy.PickParamData.Load | docs/main.js:127-144 | The common list gains the param once, the fishing list twice, and no vegetable list changes. |
| Legacy.PickAppendsCount | docs/main.js:130-141 | Over distinct pick params, a target lists each param once per `common` match plus twice per `fishing` match. |
| Legacy.PickPointGroupData.constructor | docs/main.js:147-154 | The entry stores its group and the resolved pick param, and is appended once to that param's `groups` list. |
| Legacy.PickPointGroup.Load | docs/main.js:161-167 | Every pick param's `groups` list gains the entries that resolve to it, in order. |
| Legacy.MapPickPoint.Load | docs/main.js:170-180 | Each point stores its map and resolves `groupId`. Every group's `maps` list gains the points that resolve to it. |
| Legacy.MapData.Load | docs/main.js:183-190 | The table has the map document's keys as parsed, one new map per entry. Each map is named and loads only its pick points, from `GameData/Map/{mapId}/{mapId}_GDSMapPickPoint.json`, each point on the map and resolved against the groups. Every group's `maps` list is its old value followed by the points that resolve to it, in map order. |
| Legacy.MapData.Fill | docs/main.js:187 | The map's pick points are loaded from its own document, each new point on this map, and every group's `maps` list grows by those that resolve to it. |
| Legacy.MapData.MakeAll | docs/main.js:185-186 | One new, distinct map per entry, in entry order, holding its row and its resolved name. |
| Legacy.MapData.CreateAll | docs/main.js:184-189 | Every map is new, made from its entry and holding its own pick points. The points are distinct and each on one of the maps. Every group's list gains the points that resolve to it, in map order. |
| Legacy.PointsOfHeld | docs/main.js:187 | A map's loaded pick-point table holds its document's keys as parsed, each with the point of the key's last entry, on this map and resolved against the groups. |
| Legacy.CategoriesBuilt | docs/main.js:212-216 | After the loop, `item_categories` has exactly the eleven categories, in order. Each maps to a table holding its document's keys as parsed, each with the item built from the key's last entry, named and described through the older `getProperty`. `all_items` is their in-order merge. |
| Legacy.CategoryObjectKept | docs/main.js:212-216 | An entry with a structured key in any category's item document keeps its own item in `all_items`, built from that entry: objects of two documents are never the same key, so no other category overwrites it. |
| Legacy.LoadCategories | docs/main.js:212-216 | The category loop leaves `item_categories` and `all_items` as `CategoriesBuilt` describes them, with every item new. |
| Legacy.LoadMapTable | docs/main.js:225 | The map table holds the map document's keys as parsed, each map named and holding the pick points of its own document, built from each key's last entry and resolved against the groups. Nothing loads after the maps, so this is the final state. |
| Legacy.LoadAll | docs/main.js:208-225 | The older order: items, drops and pick tables, then the map names and the maps. Each table holds its document's keys as parsed, each with the row of its last entry, resolved against the tables before it. The battle tables, their groups and the pick-point groups hold the entries each made from its own rows when loaded. Every map holds its own pick points. |
| Legacy.LoadItems | docs/main.js:208-216 | The item names and descriptions are loaded in the language's fields, then the categories, as `CategoriesBuilt` describes. |
| Legacy.LoadDrops | docs/main.js:217-223 | The drop and pick tables are each loaded from their document, resolved against the tables before them. At the end the battle tables, their groups and the pick-point groups still hold the entries made from their rows. |
| Legacy.LoadBattleDrops | docs/main.js:217-218 | The battle tables are loaded against `all_items`, each holding a detail per `tableData` row, then their groups against them; the tables' details are unchanged by the groups' load. |
| Legacy.LoadGatherDrops | docs/main.js:219-221 | The common, fishing and vegetable params are loaded from their documents, the first two resolved against the groups. The battle tables and groups keep their entries. |
| Legacy.LoadPickDrops | docs/main.js:222-223 | The pick params are resolved against the common, fishing and vegetable params, then the pick-point groups against the pick params, each holding an entry per `groupData` row. The battle tables and groups keep their entries. |
| Legacy.LoadMaps | docs/main.js:224-225 | The map names, then the maps named through them, each holding its own pick points. The drop tables keep their entries. |
| Legacy.GameData.Load | docs/main.js:206-227 | A new `GameData` holds the thirteen tables of the older revision. Each has its document's keys as parsed, each key with the row of its last entry, and is resolved against those before it. The battle tables, their groups and the pick-point groups hold the entries each made from its own rows when loaded. Every map holds its own pick points. |

## Left out

- `fetch`, `response.ok` and `response.json()` are network I/O. Every fetch is a supplied `Response`, an `Option<Document>`. `GameData`'s documents are functions from path to response (`Orchestrator.Sources`), so the per-map and per-category paths are lookups in those functions.
- `async`/`await`: every await is sequential, so the loaders are sequential methods.
- The loaders are split into two phases: the rows are created in entry order, then keyed. `loadData`'s callback runs between the `set` calls, but no callback can see the `Map` being filled, so the order is not observable.
- The exceptions JavaScript would throw on malformed JSON are not modelled. Examples: `data[0]` missing, a missing `tableData`, `Drop` or text array, and, in the older `TextData.load`, an empty text array. The shape those accessors need is a requirement (`TextsWellFormed`, `HasText`).
- `null` and `undefined` are both `None`. A missing language field gives `undefined` in JavaScript and `None` here.
- `map.get(prop) \|\| null` would also turn a falsy stored value into null. Every stored value is an object, so this is the same as a missing key.
- The `raw: any` payload is stored unchanged, as an uninterpreted `Payload` beside the fields the loaders read. No other field of `raw` is modelled.
- `PickParamData.name` is declared in `docs/main.ts` and never assigned; it is not modelled. `ItemTableGroupSetting.vegetable_params` is modelled as `vegetableParams`, a list that starts empty (docs/main.ts:107, docs/main.js:83) and that no loader writes.
- Field names are camelCase: `material_for` is `materialFor`, `pick_points` is `pickPoints`, `GroupID` is `groupId`, `DescId` is `descId`.
- Orchestrator.GameData.Load: the final state states each table's keys and rows, and the child lists a row fills when it is created: the battle tables' details, the groups' entries, the pick-point groups' entries, the shops' item infos and the recipes' item lists. It does not state the final contents of the back-reference lists, which later loaders extend. Each loader's own contract states those lists as their old value followed by the new rows that resolve to them.
- Orchestrator.GameData.Load: of each map's children, the final state states the rows, the owning map and the pick points' groups. The enemy groups' placements and the shop configs' infos are stated by `Entities.MapData.Load`, and not restated in the final state.
- Legacy.GameData.Load: likewise, the final state states the battle tables' details and the groups' and pick-point groups' entries, but not the final back-reference lists. The items' `tables` and the groups' lists are stated by their loaders.
- `Legacy.JsKey` names a structured key by its document and entry. In JavaScript two fetches of one path would give distinct objects, but no table of the model mixes the keys of two fetches of one document.
- Entities.MapData.CreateAll: the loop first makes and names every map, then loads each map's children in entry order. The source does both per entry. Making and naming read only the name table, which no child load changes, so the final state is the same. `Legacy.MapData.CreateAll` does the same.
- The default `lang = 'en'` of `GameData.load` (docs/main.ts:438, docs/main.js:206) is not modelled: `lang` is always a parameter.
- `GameData.load` assigns its fields one by one as it goes. The model assigns them all at once at the end, which is observable only to code running during the load.
- The exact path strings are only constants and functions of `mapId`. What the model states is that each path is the one the source builds.
