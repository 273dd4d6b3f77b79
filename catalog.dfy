/** The read-only item catalog that the inventory grid is drawn from. */
module Catalog {

  /** An optional value, standing for a JavaScript value that may be `null` or missing. */
  datatype Option<+T> = None | Some(value: T)

  /** One inventory entry. The asset URL is optional: an item may have nothing to load. */
  datatype Item = Item(id: int, name: string, description: string, assetUrl: Option<string>)

  /** The fixed catalog built on every render of the component. */
  const InventoryItems: seq<Item> := [
    Item(1, "Camera", "Utilize para scanear os QR Codes espalhados!", Some("./assets/iphoneX.gltf")),
    Item(2, "Card Box", "Guarda sua coleção de cartas", Some("./assets/box.gltf")),
    Item(3, "Joia", "Item especial da caça ao tesouro", Some("./assets/jewel.glb"))
  ]

  /** The truthiness test `item.assetUrl`: the URL is present and is not the empty string. */
  predicate HasAssetUrl(item: Item) {
    item.assetUrl.Some? && item.assetUrl.value != ""
  }

  /** Every catalog entry has a loadable asset and the ids, used as grid keys, are distinct. */
  lemma CatalogWellFormed()
    ensures forall i :: 0 <= i < |InventoryItems| ==> HasAssetUrl(InventoryItems[i])
    ensures forall i, j :: 0 <= i < j < |InventoryItems| ==> InventoryItems[i].id != InventoryItems[j].id
  {
  }
}
