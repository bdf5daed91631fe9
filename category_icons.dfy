/**
 * The icon table of the category pages: a fixed record from icon names to
 * icons, the lookup with its Folder fallback, and the list of offered names.
 */
module CategoryIcons {
  import opened Wrappers
  import CategoryStore

  datatype Icon =
    | Package | Plane | Monitor | Megaphone | Zap | Utensils | Laptop | Folder | CreditCard
    | Home | Car | Coffee | Gift | Heart | Music | Phone | ShoppingBag | Briefcase

  /** `iconMap`, its entries in declaration order. */
  const IconMap: seq<(string, Icon)> := [
    ("package", Package), ("plane", Plane), ("monitor", Monitor), ("megaphone", Megaphone),
    ("zap", Zap), ("utensils", Utensils), ("laptop", Laptop), ("folder", Folder),
    ("credit-card", CreditCard), ("home", Home), ("car", Car), ("coffee", Coffee),
    ("gift", Gift), ("heart", Heart), ("music", Music), ("phone", Phone),
    ("shopping-bag", ShoppingBag), ("briefcase", Briefcase)
  ]

  /** The keys of a record, in order. */
  function Keys(entries: seq<(string, Icon)>): (r: seq<string>)
    ensures |r| == |entries| && forall i :: 0 <= i < |entries| ==> r[i] == entries[i].0
  {
    seq(|entries|, i requires 0 <= i < |entries| => entries[i].0)
  }

  /** The value stored under an own key of the record, if there is one. */
  function Find(entries: seq<(string, Icon)>, key: string): (r: Option<Icon>)
    ensures r.None? <==> key !in Keys(entries)
    ensures r.Some? ==> (key, r.value) in entries
  {
    if entries == [] then None
    else if entries[0].0 == key then Some(entries[0].1)
    else
      var rest := Find(entries[1..], key);
      assert key in Keys(entries[1..]) <==> key in Keys(entries) by {
        assert Keys(entries) == [entries[0].0] + Keys(entries[1..]);
      }
      rest
  }

  /** `getCategoryIcon`, reading own keys only: a mapped name gets its icon, any other name gets Folder. */
  function GetCategoryIcon(iconName: string): (r: Icon)
    ensures iconName in Keys(IconMap) ==> (iconName, r) in IconMap
    ensures iconName !in Keys(IconMap) ==> r == Folder
  {
    Find(IconMap, iconName).GetOr(Folder)
  }

  /** `availableIcons`: `Object.keys(iconMap)`. */
  function AvailableIcons(): seq<string> {
    Keys(IconMap)
  }

  /** The name an icon is offered under: the inverse of the table. */
  function NameOf(icon: Icon): string {
    match icon
    case Package => "package" case Plane => "plane" case Monitor => "monitor"
    case Megaphone => "megaphone" case Zap => "zap" case Utensils => "utensils"
    case Laptop => "laptop" case Folder => "folder" case CreditCard => "credit-card"
    case Home => "home" case Car => "car" case Coffee => "coffee"
    case Gift => "gift" case Heart => "heart" case Music => "music"
    case Phone => "phone" case ShoppingBag => "shopping-bag" case Briefcase => "briefcase"
  }

  /** Where an icon sits in the table. */
  function IndexOf(icon: Icon): (i: nat)
    ensures i < |IconMap| && IconMap[i].1 == icon
  {
    match icon
    case Package => 0 case Plane => 1 case Monitor => 2 case Megaphone => 3 case Zap => 4
    case Utensils => 5 case Laptop => 6 case Folder => 7 case CreditCard => 8 case Home => 9
    case Car => 10 case Coffee => 11 case Gift => 12 case Heart => 13 case Music => 14
    case Phone => 15 case ShoppingBag => 16 case Briefcase => 17
  }

  /** The table pairs each icon with its own name: every entry is (NameOf(icon), icon). */
  lemma TableIsNameOf(i: nat)
    requires i < |IconMap|
    ensures IconMap[i].0 == NameOf(IconMap[i].1)
  {
  }

  /** No icon sits at two places of the table. */
  lemma IndexOfTable(i: nat)
    requires i < |IconMap|
    ensures IndexOf(IconMap[i].1) == i
  {
  }

  /** `availableIcons` is the eighteen keys in declaration order, each once. */
  lemma AvailableIconsSpec()
    ensures |AvailableIcons()| == 18
    ensures forall i :: 0 <= i < 18 ==> AvailableIcons()[i] == IconMap[i].0
    ensures forall i, j :: 0 <= i < j < 18 ==> AvailableIcons()[i] != AvailableIcons()[j]
  {
    forall i, j | 0 <= i < j < 18 ensures AvailableIcons()[i] != AvailableIcons()[j] {
      IndexOfTable(i);
      IndexOfTable(j);
      TableIsNameOf(i);
      TableIsNameOf(j);
      NameOfInjective(IconMap[i].1, IconMap[j].1);
    }
  }

  /** Different icons have different names. */
  lemma NameOfInjective(a: Icon, b: Icon)
    requires a != b
    ensures NameOf(a) != NameOf(b)
  {
  }

  /** Every offered name resolves through the table, to the icon it names, never through the fallback. */
  lemma AvailableIconsResolve(name: string)
    requires name in AvailableIcons()
    ensures Find(IconMap, name).Some?
    ensures NameOf(GetCategoryIcon(name)) == name
  {
    var icon := GetCategoryIcon(name);
    var i :| 0 <= i < |IconMap| && IconMap[i] == (name, icon);
    TableIsNameOf(i);
  }

  /** Every icon is offered: the name of each icon is in `availableIcons` and looks it up. */
  lemma EveryIconOffered(icon: Icon)
    ensures NameOf(icon) in AvailableIcons()
    ensures GetCategoryIcon(NameOf(icon)) == icon
  {
    var i := IndexOf(icon);
    TableIsNameOf(i);
    assert AvailableIcons()[i] == NameOf(icon);
    var got := GetCategoryIcon(NameOf(icon));
    var j :| 0 <= j < |IconMap| && IconMap[j] == (NameOf(icon), got);
    TableIsNameOf(j);
    if got != icon {
      NameOfInjective(got, icon);
    }
  }

  /** A name that no icon has falls back to Folder. */
  lemma UnknownNameIsFolder(name: string)
    requires forall icon: Icon :: name != NameOf(icon)
    ensures name !in AvailableIcons()
    ensures GetCategoryIcon(name) == Folder
  {
    forall i | 0 <= i < |IconMap| ensures IconMap[i].0 != name {
      TableIsNameOf(i);
    }
  }

  /** Every seeded default category names an icon of the table. */
  lemma DefaultIconsAreMapped(d: CategoryStore.DefaultCategory)
    requires d in CategoryStore.Defaults
    ensures d.icon in AvailableIcons()
    ensures NameOf(GetCategoryIcon(d.icon)) == d.icon
  {
    var k :| 0 <= k < |CategoryStore.Defaults| && CategoryStore.Defaults[k] == d;
    var icon :=
      if k == 0 then Package else if k == 1 then Plane else if k == 2 then Monitor
      else if k == 3 then Megaphone else if k == 4 then Zap else if k == 5 then Utensils
      else if k == 6 then Laptop else Folder;
    assert d.icon == NameOf(icon);
    EveryIconOffered(icon);
  }

  // ---------------------------------------------------------------------------
  // The lookup as written: a plain object also inherits Object.prototype
  // ---------------------------------------------------------------------------

  /** The names every plain object inherits from Object.prototype. */
  const PrototypeNames: seq<string> := [
    "constructor", "toString", "toLocaleString", "valueOf", "hasOwnProperty",
    "isPrototypeOf", "propertyIsEnumerable", "__proto__", "__defineGetter__",
    "__defineSetter__", "__lookupGetter__", "__lookupSetter__"
  ]

  /** What `iconMap[iconName] || Folder` evaluates to: an icon, or an inherited member, which is truthy. */
  datatype Lookup = IconValue(icon: Icon) | InheritedMember(name: string)

  function GetCategoryIconAsWritten(iconName: string): (r: Lookup)
    ensures r.InheritedMember? ==> iconName in PrototypeNames
  {
    var own := Find(IconMap, iconName);
    if own.Some? then IconValue(own.value)
    else if iconName in PrototypeNames then InheritedMember(iconName)
    else IconValue(Folder)
  }

  /** The two lookups agree on every name that is not an inherited member's. */
  lemma AsWrittenAgreesOffPrototype(iconName: string)
    requires iconName !in PrototypeNames
    ensures GetCategoryIconAsWritten(iconName) == IconValue(GetCategoryIcon(iconName))
  {
  }

  /** No icon is named like an inherited member. */
  lemma PrototypeNamesAreNotIcons(icon: Icon)
    ensures NameOf(icon) !in PrototypeNames
  {
  }

  /** An inherited member's name is no key of the table, yet the lookup as written yields that member, not Folder. */
  lemma InheritedNamesMissTheFallback(iconName: string)
    requires iconName in PrototypeNames
    ensures iconName !in AvailableIcons()
    ensures GetCategoryIconAsWritten(iconName) == InheritedMember(iconName)
    ensures GetCategoryIcon(iconName) == Folder
  {
    forall icon: Icon ensures iconName != NameOf(icon) {
      PrototypeNamesAreNotIcons(icon);
    }
    UnknownNameIsFolder(iconName);
  }

  /** The concrete case: a category whose icon is "toString" renders a function instead of Folder. */
  lemma ToStringExample(iconName: string)
    requires iconName == "toString"
    ensures GetCategoryIconAsWritten(iconName) == InheritedMember("toString")
    ensures GetCategoryIcon(iconName) == Folder
  {
    InheritedNamesMissTheFallback(iconName);
  }
}
