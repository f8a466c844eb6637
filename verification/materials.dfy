/**
 * The shared material table: five categories, each with an icon and a list of
 * items; every item has a name and an icon descriptor naming an icon library.
 */
module Materials {

  datatype Icon = Icon(library: string, name: string)

  datatype Item = Item(name: string, icon: Icon)

  datatype Category = Category(name: string, icon: Icon, items: seq<Item>)

  /** The icon libraries the icon component can render. */
  const RenderableLibraries: set<string> := {"Ionicons", "MaterialCommunityIcons", "FontAwesome6"}

  /** The table every screen except the Register screen imports. */
  const Categories: seq<Category> := [
    Category("Recicláveis Comuns", Icon("MaterialCommunityIcons", "recycle"), [
      Item("Papéis e Papelão", Icon("Ionicons", "newspaper-outline")),
      Item("Plásticos", Icon("MaterialCommunityIcons", "toy-brick")),
      Item("Vidros", Icon("MaterialCommunityIcons", "bottle-wine-outline")),
      Item("Metais", Icon("MaterialCommunityIcons", "magnet-on"))
    ]),
    Category("Construção Civil", Icon("Ionicons", "hammer"), [
      Item("Entulho", Icon("FontAwesome6", "bucket")),
      Item("Madeiras", Icon("FontAwesome6", "tree")),
      Item("Cerâmicas", Icon("MaterialCommunityIcons", "texture-box"))
    ]),
    Category("Móveis e Eletrodomésticos", Icon("Ionicons", "home"), [
      Item("Móveis", Icon("MaterialCommunityIcons", "sofa")),
      Item("Eletrodomésticos", Icon("MaterialCommunityIcons", "washing-machine"))
    ]),
    Category("Pneus", Icon("MaterialCommunityIcons", "tire"), [
      Item("Pneus Usados", Icon("MaterialCommunityIcons", "tire"))
    ]),
    Category("Resíduos Eletrônicos", Icon("FontAwesome6", "computer-mouse"), [
      Item("Celulares", Icon("Ionicons", "phone-portrait-outline")),
      Item("Computadores", Icon("FontAwesome6", "computer")),
      Item("TVs e Rádios", Icon("FontAwesome6", "radio"))
    ])
  ]

  /** All items of a table, category by category, each category's items in order. */
  function AllItems(table: seq<Category>): seq<Item> {
    if table == [] then [] else table[0].items + AllItems(table[1..])
  }

  /** The names of a list of items, in order. */
  function Names(items: seq<Item>): seq<string> {
    if items == [] then [] else [items[0].name] + Names(items[1..])
  }

  /** One name per item, in item order. */
  lemma {:induction false} NamesIndex(items: seq<Item>)
    ensures |Names(items)| == |items|
    ensures forall i :: 0 <= i < |items| ==> Names(items)[i] == items[i].name
  {
    if items != [] {
      NamesIndex(items[1..]);
    }
  }

  /** No name occurs twice. */
  predicate Distinct(names: seq<string>) {
    forall i, j :: 0 <= i < j < |names| ==> names[i] != names[j]
  }

  /** Every category has at least one item. */
  predicate NoEmptyCategory(table: seq<Category>) {
    forall i :: 0 <= i < |table| ==> table[i].items != []
  }

  /** Every icon in the table, of a category or an item, comes from a renderable library. */
  predicate AllIconsRenderable(table: seq<Category>) {
    forall i :: 0 <= i < |table| ==>
      table[i].icon.library in RenderableLibraries
      && forall j :: 0 <= j < |table[i].items| ==> table[i].items[j].icon.library in RenderableLibraries
  }

  /** Five categories, in display order, holding 4, 3, 2, 1 and 3 items. */
  lemma CategoriesShape()
    ensures |Categories| == 5
    ensures Categories[0].name == "Recicláveis Comuns"
    ensures Categories[1].name == "Construção Civil"
    ensures Categories[2].name == "Móveis e Eletrodomésticos"
    ensures Categories[3].name == "Pneus"
    ensures Categories[4].name == "Resíduos Eletrônicos"
    ensures |Categories[0].items| == 4 && |Categories[1].items| == 3
    ensures |Categories[2].items| == 2 && |Categories[3].items| == 1
    ensures |Categories[4].items| == 3
    ensures NoEmptyCategory(Categories)
  {
  }

  /** The shared table's 13 item names, in category order then item order. */
  const ItemNames: seq<string> := ["Papéis e Papelão", "Plásticos", "Vidros", "Metais", "Entulho",
    "Madeiras", "Cerâmicas", "Móveis", "Eletrodomésticos", "Pneus Usados", "Celulares",
    "Computadores", "TVs e Rádios"]

  /** The shared table flattened, category by category. */
  lemma SharedItems()
    ensures AllItems(Categories)
      == Categories[0].items + Categories[1].items + Categories[2].items
         + Categories[3].items + Categories[4].items
  {
    var c := Categories;
    assert AllItems(c[4..]) == c[4].items;
    assert AllItems(c[3..]) == c[3].items + c[4].items;
    assert AllItems(c[2..]) == c[2].items + c[3].items + c[4].items;
    assert AllItems(c[1..]) == c[1].items + c[2].items + c[3].items + c[4].items;
  }

  /** Flattening the shared table yields exactly these item names, in this order. */
  lemma SharedItemNames()
    ensures Names(AllItems(Categories)) == ItemNames
  {
    var items := AllItems(Categories);
    SharedItems();
    NamesIndex(items);
    assert |items| == 13;
    forall k | 0 <= k < 13 ensures Names(items)[k] == ItemNames[k] {
      assert Names(items)[k] == items[k].name;
    }
  }

  /** No item of the shared table uses the given icon name. */
  lemma NoItemIconNamed(iconName: string)
    requires iconName !in {"newspaper-outline", "toy-brick", "bottle-wine-outline", "magnet-on",
      "bucket", "tree", "texture-box", "sofa", "washing-machine", "tire",
      "phone-portrait-outline", "computer", "radio"}
    ensures forall k :: 0 <= k < |AllItems(Categories)| ==> AllItems(Categories)[k].icon.name != iconName
  {
    SharedItems();
  }

  /** The table holds 13 items, and no item name occurs twice across the whole table. */
  lemma ItemNamesUnique()
    ensures |AllItems(Categories)| == 13
    ensures Distinct(Names(AllItems(Categories)))
  {
    SharedItemNames();
    NamesIndex(AllItems(Categories));
    DistinctItemNames();
  }

  /** Every item name has one of six lengths and starts with a capital letter. */
  lemma ItemNameShapes()
    ensures forall k :: 0 <= k < |ItemNames| ==>
      |ItemNames[k]| in {6, 7, 8, 9, 12, 16} && 'A' <= ItemNames[k][0] <= 'Z'
    ensures forall k :: 0 <= k < |ItemNames| && |ItemNames[k]| == 16 ==> ItemNames[k][0] != 'C'
  {
  }

  lemma DistinctItemNames()
    ensures Distinct(ItemNames)
  {
  }

  /** Every icon descriptor names one of the three libraries the icon component draws. */
  lemma IconsRenderable()
    ensures AllIconsRenderable(Categories)
  {
  }
}
