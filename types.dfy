/** The application's record types (types.ts). */
module Types {

  /** The four camera viewpoints a user can choose. */
  datatype Perspective = Front | Corner | Window | Closeup

  /** A catalogue entry; rooms, furniture and decor templates all have this shape. */
  datatype CatalogItem = CatalogItem(
    id: string,
    name: string,          // English name, used in prompts and file names
    nameKey: string,       // translation key, opaque here
    imageUrl: string,
    description: string)   // phrase used in the generation prompt

  type Room = CatalogItem

  /** A wall colour of the catalogue. */
  datatype Color = Color(id: string, name: string, nameKey: string, hex: string, tailwindClass: string)

  /** A placed furniture or decor piece: a catalogue item plus its per-placement id. */
  datatype Instance = Instance(item: CatalogItem, instanceId: int)

  /** Which of the two placement lists an item belongs to. */
  datatype Category = FurnitureList | DecorList

  /** A reference to a catalogue item by id, as stored in a saved design. */
  datatype ItemRef = ItemRef(id: string)

  /** The exported projection of a selection: catalogue ids only, no instance ids. */
  datatype SavedDesign = SavedDesign(
    version: int,
    roomId: string,
    colorId: string,
    furniture: seq<ItemRef>,
    decor: seq<ItemRef>,
    perspective: Perspective)
}
