/**
 * The JSON rows (entry values) of the exported tables, reduced to the
 * fields the loaders read. Whatever else a row holds is `rest`, an
 * uninterpreted payload; the entities keep the whole row as `raw`.
 */
module Rows {

  /** The fields of a row that no loader reads. */
  type Payload

  /** A text row: `fields[f]` is the array of per-language records under
      the field named `f` (`textInfo`, `nounInfo`), each record a map from
      a language field (`text_en`, ...) to its string. */
  datatype TextRow = TextRow(rest: Payload, fields: map<string, seq<map<string, string>>>)

  /** An item row: `nameId` and `DescId`. */
  datatype ItemRow = ItemRow(rest: Payload, nameId: string, descId: string)

  /** One element of an item table's `tableData`: its `ItemId`. */
  datatype DetailRow = DetailRow(rest: Payload, itemId: string)

  /** An item table row and its `tableData`. */
  datatype TableRow = TableRow(rest: Payload, tableData: seq<DetailRow>)

  /** One element of an item table group's `tableData`: its `tableId`. */
  datatype GroupEntryRow = GroupEntryRow(rest: Payload, tableId: string)

  /** An item table group row and its `tableData`. */
  datatype GroupRow = GroupRow(rest: Payload, tableData: seq<GroupEntryRow>)

  /** A common or fishing pick-param row: `Drop.tableGroupId`. */
  datatype CommonPickRow = CommonPickRow(rest: Payload, dropTableGroupId: string)

  /** A vegetable pick-param row; no field of it is read. */
  datatype VegetableRow = VegetableRow(rest: Payload)

  /** A pick-param row: `commonPickDataId`, `fishingParamDataId` and
      `vegetableParamDataId`. */
  datatype PickParamRow = PickParamRow(rest: Payload, commonPickDataId: string,
                                       fishingParamDataId: string, vegetableParamDataId: string)

  /** One element of a pick-point group's `groupData`: its `paramId`. */
  datatype PointEntryRow = PointEntryRow(rest: Payload, paramId: string)

  /** A pick-point group row and its `groupData`. */
  datatype PointGroupRow = PointGroupRow(rest: Payload, groupData: seq<PointEntryRow>)

  /** A row of a map's pick-point file: `GroupID`. */
  datatype PickPointRow = PickPointRow(rest: Payload, groupId: string)

  /** A character row: `nameId`. */
  datatype CharaRow = CharaRow(rest: Payload, nameId: string)

  /** An enemy character-parameter row: `charaID`. */
  datatype CharaParamRow = CharaParamRow(rest: Payload, charaId: string)

  /** One element of a shop's `itemInfoList`: its `ItemId`. */
  datatype ShopItemRow = ShopItemRow(rest: Payload, itemId: string)

  /** A shop row: `signInfo.buyShopNameIdArray` and `itemInfoList`. */
  datatype ShopRow = ShopRow(rest: Payload, buyShopNameIds: seq<string>, itemInfoList: seq<ShopItemRow>)

  /** One element of a map shop config's `shopInfoArray`: its `shopId`. */
  datatype ShopInfoRow = ShopInfoRow(rest: Payload, shopId: string)

  /** A row of a map's shop-config file and its `shopInfoArray`. */
  datatype ShopConfigRow = ShopConfigRow(rest: Payload, shopInfoArray: seq<ShopInfoRow>)

  /** One element of an enemy group's `Enemy` list: `paramId.Name` and
      `Drop.itemData.tableGroupId`. */
  datatype PlacementRow = PlacementRow(rest: Payload, paramIdName: string, dropTableGroupId: string)

  /** A row of a map's enemy-placement file and its `Enemy` list. */
  datatype EnemyGroupRow = EnemyGroupRow(rest: Payload, enemy: seq<PlacementRow>)

  /** A map row: `mapName` and `mapId`. */
  datatype MapRow = MapRow(rest: Payload, mapName: string, mapId: string)

  /** One element of a recipe's `itemList`: its `ItemId`. */
  datatype RecipeItemRow = RecipeItemRow(rest: Payload, itemId: string)

  /** A recipe row: `ItemId` and `itemList`. */
  datatype RecipeRow = RecipeRow(rest: Payload, itemId: string, itemList: seq<RecipeItemRow>)
}
