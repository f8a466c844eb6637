/**
 * The history lists' icon lookup: search the categories in order, and within a
 * category its items in order, for the first item whose name equals the
 * material name exactly; fall back to a default leaf icon.
 */
module IconLookup {
  import opened Wrappers
  import opened Materials

  /** The icon shown for a material no item of the table is named after. */
  const DefaultIcon: Icon := Icon("Ionicons", "leaf-outline")

  /** `items.find(item => item.name === name)`: the first item with that exact name. */
  function Find(items: seq<Item>, name: string): (r: Option<Item>)
    ensures r.None? <==> forall i :: 0 <= i < |items| ==> items[i].name != name
    ensures r.Some? ==> r.value in items && r.value.name == name
  {
    if items == [] then None
    else if items[0].name == name then Some(items[0])
    else Find(items[1..], name)
  }

  /** `getIconForMaterial(name)` over a table of categories. */
  function GetIconForMaterial(table: seq<Category>, name: string): Icon {
    if table == [] then DefaultIcon
    else match Find(table[0].items, name)
      case Some(item) => item.icon
      case None => GetIconForMaterial(table[1..], name)
  }

  /** `Find` returns the item at the first index whose name matches. */
  lemma {:induction false} FindFirst(items: seq<Item>, name: string, k: nat)
    requires k < |items| && items[k].name == name
    requires forall j :: 0 <= j < k ==> items[j].name != name
    ensures Find(items, name) == Some(items[k])
  {
    if k > 0 {
      FindFirst(items[1..], name, k - 1);
    }
  }

  /** Searching a concatenation searches the first part, then the second. */
  lemma {:induction false} FindAppend(a: seq<Item>, b: seq<Item>, name: string)
    ensures Find(a + b, name) == if Find(a, name).Some? then Find(a, name) else Find(b, name)
  {
    if a != [] {
      assert (a + b)[0] == a[0];
      assert (a + b)[1..] == a[1..] + b;
      FindAppend(a[1..], b, name);
    } else {
      assert a + b == b;
    }
  }

  /**
   * The nested search equals one search over the flattened table: the category
   * loop with an early return visits items exactly in flattened order.
   */
  lemma {:induction false} LookupIsFlatSearch(table: seq<Category>, name: string)
    ensures GetIconForMaterial(table, name)
      == match Find(AllItems(table), name)
         case Some(item) => item.icon
         case None => DefaultIcon
  {
    if table != [] {
      FindAppend(table[0].items, AllItems(table[1..]), name);
      LookupIsFlatSearch(table[1..], name);
    }
  }

  /**
   * The icon returned is that of the first item, in category order then item
   * order, whose name equals the material name.
   */
  lemma LookupFirstMatch(table: seq<Category>, name: string, k: nat)
    requires k < |AllItems(table)| && AllItems(table)[k].name == name
    requires forall j :: 0 <= j < k ==> AllItems(table)[j].name != name
    ensures GetIconForMaterial(table, name) == AllItems(table)[k].icon
  {
    LookupIsFlatSearch(table, name);
    FindFirst(AllItems(table), name, k);
  }

  /** When no item carries the name, the default icon is returned. */
  lemma LookupFallback(table: seq<Category>, name: string)
    requires forall k :: 0 <= k < |AllItems(table)| ==> AllItems(table)[k].name != name
    ensures GetIconForMaterial(table, name) == DefaultIcon
  {
    LookupIsFlatSearch(table, name);
  }

  /** In the shared table, whose names are unique, any item's name yields that item's icon. */
  lemma LookupByUniqueName(k: nat)
    requires k < |AllItems(Categories)|
    ensures GetIconForMaterial(Categories, AllItems(Categories)[k].name) == AllItems(Categories)[k].icon
  {
    var items := AllItems(Categories);
    ItemNamesUnique();
    NamesIndex(items);
    assert Names(items)[k] == items[k].name;
    forall j | 0 <= j < k ensures items[j].name != items[k].name {
      assert Names(items)[j] == items[j].name;
    }
    LookupFirstMatch(Categories, items[k].name, k);
  }

  /**
   * On the shared table the lookup falls back to the default icon exactly when
   * the name is not one of the item names (no item uses the default icon).
   */
  lemma DefaultIffUnknown(name: string)
    ensures GetIconForMaterial(Categories, name) == DefaultIcon <==> name !in ItemNames
  {
    var items := AllItems(Categories);
    SharedItemNames();
    NamesIndex(items);
    if name in ItemNames {
      var k :| 0 <= k < |ItemNames| && ItemNames[k] == name;
      assert Names(items)[k] == items[k].name;
      LookupByUniqueName(k);
      NoItemIconNamed(DefaultIcon.name);
    } else {
      forall k | 0 <= k < |items| ensures items[k].name != name {
        assert Names(items)[k] == items[k].name;
      }
      LookupFallback(Categories, name);
    }
  }

  /**
   * Names are compared exactly, with no trimming and no case folding: a
   * different letter case or a leading space misses the item.
   */
  lemma ExactItemNamesOnly()
    ensures GetIconForMaterial(Categories, "plásticos") == DefaultIcon
    ensures GetIconForMaterial(Categories, " Plásticos") == DefaultIcon
  {
    NotAnItemName("plásticos");
    NotAnItemName(" Plásticos");
    DefaultIffUnknown("plásticos");
    DefaultIffUnknown(" Plásticos");
  }

  /**
   * Proof helper: a name of a length no item name has, one not starting with a
   * capital letter, or one of 16 characters starting with 'C' is no item name.
   */
  lemma NotAnItemName(name: string)
    requires |name| !in {6, 7, 8, 9, 12, 16} || name[0] < 'A' || name[0] > 'Z' || (|name| == 16 && name[0] == 'C')
    ensures name !in ItemNames
  {
    ItemNameShapes();
    forall k | 0 <= k < |ItemNames| ensures ItemNames[k] != name {
      assert |ItemNames[k]| in {6, 7, 8, 9, 12, 16} && 'A' <= ItemNames[k][0] <= 'Z';
      assert |ItemNames[k]| == 16 ==> ItemNames[k][0] != 'C';
    }
  }

  /** Looking up a category's own name finds no item: every category name falls back to the default icon. */
  lemma CategoryNamesFallBack()
    ensures forall i :: 0 <= i < |Categories| ==> GetIconForMaterial(Categories, Categories[i].name) == DefaultIcon
  {
    CategoriesShape();
    forall i | 0 <= i < |Categories| ensures GetIconForMaterial(Categories, Categories[i].name) == DefaultIcon {
      var name := Categories[i].name;
      assert name in ["Recicláveis Comuns", "Construção Civil", "Móveis e Eletrodomésticos", "Pneus", "Resíduos Eletrônicos"];
      NotAnItemName(name);
      DefaultIffUnknown(name);
    }
  }

  /** Two item names found in different categories, each with its own icon. */
  lemma ItemNameHits()
    ensures GetIconForMaterial(Categories, "Plásticos") == Icon("MaterialCommunityIcons", "toy-brick")
    ensures GetIconForMaterial(Categories, "Pneus Usados") == Icon("MaterialCommunityIcons", "tire")
  {
    SharedItems();
    var items := AllItems(Categories);
    assert items[1] == Categories[0].items[1];
    assert items[9] == Categories[3].items[0];
    LookupByUniqueName(1);
    LookupByUniqueName(9);
  }
}
