/**
 * Icon name resolution: a service's `icon` text picks one of the mapped
 * icons after its first character is upper-cased, and anything that does
 * not name a mapped icon shows the help icon. Case mapping is ASCII only.
 */
module Icon {
  import opened Wrappers

  /** The icons the component can render. */
  datatype Glyph =
    | Shield | CheckSquare | FileText | Radio | Sailboat | Ship | Package
    | LayoutDashboard | Briefcase | MessageSquare | Users | FileSpreadsheet
    | Settings | User | CreditCard | DollarSign | BarChart | Clock | Book
    | Check | Award | Headphones | HelpCircle

  /** The export name of an icon. */
  function GlyphName(g: Glyph): string {
    match g
    case Shield => "Shield"
    case CheckSquare => "CheckSquare"
    case FileText => "FileText"
    case Radio => "Radio"
    case Sailboat => "Sailboat"
    case Ship => "Ship"
    case Package => "Package"
    case LayoutDashboard => "LayoutDashboard"
    case Briefcase => "Briefcase"
    case MessageSquare => "MessageSquare"
    case Users => "Users"
    case FileSpreadsheet => "FileSpreadsheet"
    case Settings => "Settings"
    case User => "User"
    case CreditCard => "CreditCard"
    case DollarSign => "DollarSign"
    case BarChart => "BarChart"
    case Clock => "Clock"
    case Book => "Book"
    case Check => "Check"
    case Award => "Award"
    case Headphones => "Headphones"
    case HelpCircle => "HelpCircle"
  }

  /** The keys of `iconMap`, in source order. */
  const IconMapKeys: seq<string> := [
    "Shield", "CheckSquare", "FileText", "Radio", "Sailboat", "Ship", "Package",
    "LayoutDashboard", "Briefcase", "MessageSquare", "Users", "FileSpreadsheet",
    "Settings", "User", "CreditCard", "DollarSign", "BarChart", "Clock", "Book",
    "Check", "Award", "Headphones"
  ]

  /**
   * The own property `key` of `iconMap`: the icon exported under that name
   * for the registered names, nothing for any other key. The names are
   * indexed by their first letter.
   */
  function IconMap(key: string): (g: Option<Glyph>)
    ensures g.Some? ==> GlyphName(g.value) == key
  {
    if |key| == 0 then None
    else if key[0] < 'L' then LookupAToH(key)
    else LookupLToU(key)
  }

  /** The lookup for names starting with a letter before `L`. */
  function LookupAToH(key: string): (g: Option<Glyph>)
    requires |key| > 0
    ensures g.Some? ==> GlyphName(g.value) == key
  {
    match key[0]
    case 'A' => if key == "Award" then Some(Award) else None
    case 'B' =>
      if key == "Briefcase" then Some(Briefcase)
      else if key == "BarChart" then Some(BarChart)
      else if key == "Book" then Some(Book)
      else None
    case 'C' =>
      if key == "CheckSquare" then Some(CheckSquare)
      else if key == "CreditCard" then Some(CreditCard)
      else if key == "Clock" then Some(Clock)
      else if key == "Check" then Some(Check)
      else None
    case 'D' => if key == "DollarSign" then Some(DollarSign) else None
    case 'F' =>
      if key == "FileText" then Some(FileText)
      else if key == "FileSpreadsheet" then Some(FileSpreadsheet)
      else None
    case 'H' => if key == "Headphones" then Some(Headphones) else None
    case _ => None
  }

  /** The lookup for names starting with `L` or a later character. */
  function LookupLToU(key: string): (g: Option<Glyph>)
    requires |key| > 0
    ensures g.Some? ==> GlyphName(g.value) == key
  {
    match key[0]
    case 'L' => if key == "LayoutDashboard" then Some(LayoutDashboard) else None
    case 'M' => if key == "MessageSquare" then Some(MessageSquare) else None
    case 'P' => if key == "Package" then Some(Package) else None
    case 'R' => if key == "Radio" then Some(Radio) else None
    case 'S' =>
      if key == "Shield" then Some(Shield)
      else if key == "Sailboat" then Some(Sailboat)
      else if key == "Ship" then Some(Ship)
      else if key == "Settings" then Some(Settings)
      else None
    case 'U' =>
      if key == "Users" then Some(Users)
      else if key == "User" then Some(User)
      else None
    case _ => None
  }

  /** The position of an icon among the table's entries; the fallback comes after them. */
  function EntryPosition(g: Glyph): int {
    match g
    case Shield => 0
    case CheckSquare => 1
    case FileText => 2
    case Radio => 3
    case Sailboat => 4
    case Ship => 5
    case Package => 6
    case LayoutDashboard => 7
    case Briefcase => 8
    case MessageSquare => 9
    case Users => 10
    case FileSpreadsheet => 11
    case Settings => 12
    case User => 13
    case CreditCard => 14
    case DollarSign => 15
    case BarChart => 16
    case Clock => 17
    case Book => 18
    case Check => 19
    case Award => 20
    case Headphones => 21
    case HelpCircle => 22
  }

  /** The key at position `i` looks up the icon at position `i`. */
  lemma KeyAtPosition(i: int)
    requires 0 <= i < |IconMapKeys|
    ensures IconMap(IconMapKeys[i]).Some?
    ensures EntryPosition(IconMap(IconMapKeys[i]).value) == i
  {
  }

  /** Each registered icon's name sits at its position among the keys. */
  lemma NameAtPosition(g: Glyph)
    requires g != HelpCircle
    ensures 0 <= EntryPosition(g) < |IconMapKeys| && IconMapKeys[EntryPosition(g)] == GlyphName(g)
  {
  }

  /** `key` is an own key of `iconMap` exactly when it is one of the listed keys. */
  lemma IconMapKeysExact(key: string)
    ensures IconMap(key).Some? <==> key in IconMapKeys
  {
    if IconMap(key).Some? {
      NameAtPosition(IconMap(key).value);
    }
    if key in IconMapKeys {
      var i :| 0 <= i < |IconMapKeys| && IconMapKeys[i] == key;
      KeyAtPosition(i);
    }
  }

  /**
   * The table has 22 distinct keys; every icon but the fallback is
   * registered under its own export name; the fallback's name is no key.
   */
  lemma IconMapShape()
    ensures |IconMapKeys| == 22
    ensures forall i, j :: 0 <= i < j < |IconMapKeys| ==> IconMapKeys[i] != IconMapKeys[j]
    ensures forall g :: g != HelpCircle ==> IconMap(GlyphName(g)) == Some(g)
    ensures IconMap("HelpCircle") == None
  {
    forall i, j | 0 <= i < j < |IconMapKeys|
      ensures IconMapKeys[i] != IconMapKeys[j]
    {
      KeyAtPosition(i);
      KeyAtPosition(j);
    }
  }

  /** `s.charAt(0).toUpperCase() + s.slice(1)`, for ASCII letters. */
  function UpperFirst(s: string): (r: string)
    ensures |r| == |s|
    ensures |s| > 0 ==> r[1..] == s[1..]
    ensures |s| > 0 && 'a' <= s[0] <= 'z' ==> r[0] == s[0] - 'a' + 'A'
    ensures |s| > 0 && !('a' <= s[0] <= 'z') ==> r[0] == s[0]
  {
    if |s| == 0 then s
    else if 'a' <= s[0] <= 'z' then [(s[0] - 'a' + 'A') as char] + s[1..]
    else s
  }

  /**
   * The icon a name shows: the mapped icon the normalised name denotes, the
   * help icon for the empty name and for every name the table lacks. Every
   * name resolves.
   */
  function Resolve(name: string): (g: Glyph)
    ensures name == "" ==> g == HelpCircle
    ensures name != "" && IconMap(UpperFirst(name)).Some? ==> g == IconMap(UpperFirst(name)).value
    ensures IconMap(UpperFirst(name)).None? ==> g == HelpCircle
    ensures g != HelpCircle ==> GlyphName(g) == UpperFirst(name)
  {
    if name == "" then HelpCircle
    else
      match IconMap(UpperFirst(name))
      case Some(g) => g
      case None => HelpCircle
  }

  /** Names that differ only in the case of their first letter show the same icon. */
  lemma FirstLetterCaseIgnored(name: string)
    requires |name| > 0 && 'a' <= name[0] <= 'z'
    ensures Resolve(name) == Resolve([(name[0] - 'a' + 'A') as char] + name[1..])
  {
    var upper := [(name[0] - 'a' + 'A') as char] + name[1..];
    assert UpperFirst(upper) == upper;
  }

  /** Only the first letter is normalised: a lower-case name finds its icon, an all-capitals one falls back. */
  lemma OnlyFirstLetterNormalised()
    ensures Resolve("shield") == Shield
    ensures Resolve("SHIELD") == HelpCircle
  {
    assert UpperFirst("shield") == "Shield";
    assert UpperFirst("SHIELD") == "SHIELD";
  }

  // The lookup as written: property access on a plain object also finds the
  // members it inherits.

  /** The members every plain object inherits from `Object.prototype`. */
  const ObjectPrototypeKeys: seq<string> := [
    "constructor", "hasOwnProperty", "isPrototypeOf", "propertyIsEnumerable",
    "toLocaleString", "toString", "valueOf", "__proto__",
    "__defineGetter__", "__defineSetter__", "__lookupGetter__", "__lookupSetter__"
  ]

  /** What `iconMap[key]` evaluates to: an own icon, an inherited member (truthy), or `undefined`. */
  datatype Property = OwnIcon(glyph: Glyph) | Inherited(member: string) | Undefined

  /** Property access on `iconMap`: own keys first, then the prototype chain. */
  function IconMapProperty(key: string): (p: Property)
    ensures IconMap(key).Some? ==> p == OwnIcon(IconMap(key).value)
    ensures IconMap(key).None? && key in ObjectPrototypeKeys ==> p == Inherited(key)
    ensures p.Undefined? <==> IconMap(key).None? && key !in ObjectPrototypeKeys
  {
    match IconMap(key)
    case Some(g) => OwnIcon(g)
    case None => if key in ObjectPrototypeKeys then Inherited(key) else Undefined
  }

  /**
   * The component as written: the help icon for an empty name or a falsy
   * lookup, otherwise whatever the lookup found, inherited members included.
   */
  function ResolveAsWritten(name: string): (p: Property)
    ensures !p.Undefined?
    ensures p.OwnIcon? ==> p.glyph == Resolve(name)
    ensures p.Inherited? ==> Resolve(name) == HelpCircle && p.member in ObjectPrototypeKeys
  {
    if name == "" then OwnIcon(HelpCircle)
    else
      match IconMapProperty(UpperFirst(name))
      case Undefined => OwnIcon(HelpCircle)
      case found => found
  }

  /** `"__proto__"` survives normalisation and finds `Object.prototype` instead of the help icon. */
  lemma ProtoNameIsNotAnIcon()
    ensures ResolveAsWritten("__proto__") == Inherited("__proto__")
    ensures Resolve("__proto__") == HelpCircle
  {
    assert UpperFirst("__proto__") == "__proto__";
    assert ObjectPrototypeKeys[7] == "__proto__";
  }

  /** A name starting with a lower-case letter never reaches an inherited member. */
  lemma LowerCaseNamesAreSafe(name: string)
    requires |name| > 0 && 'a' <= name[0] <= 'z'
    ensures ResolveAsWritten(name) == OwnIcon(Resolve(name))
  {
    var key := UpperFirst(name);
    assert 'A' <= key[0] <= 'Z';
    forall i | 0 <= i < |ObjectPrototypeKeys|
      ensures ObjectPrototypeKeys[i] != key
    {
      assert !('A' <= ObjectPrototypeKeys[i][0] <= 'Z');
    }
  }
}
