/**
  The advanced-settings menu: one entry per setting the avatar declares, each
  bound to one, two or three parameters named by the setting's machine name and
  a fixed suffix, and seeded from whatever the parameter store currently holds.
*/
module Menu {

  import opened Common
  import opened Parameters

  /** The type a schema entry declares. */
  datatype SettingsType =
    | Toggle | Dropdown | Color | Slider | Joystick2D | Joystick3D | InputSingle | InputVector2 | InputVector3

  /**
    The setting object attached to a schema entry, by its class, with its declared
    default. `OtherSetting` is a null setting or a class the menu does not list.
  */
  datatype Setting =
    | ToggleSetting(defaultOn: bool)
    | DropdownSetting(defaultIndex: int, optionNames: seq<string>)
    | SliderSetting(value: real)
    | Joystick2DSetting(x: real, y: real)
    | Joystick3DSetting(x: real, y: real, z: real)
    | InputSingleSetting(value: real)
    | InputVector2Setting(x: real, y: real)
    | InputVector3Setting(x: real, y: real, z: real)
    | MaterialColorSetting(r: real, g: real, b: real)
    | OtherSetting

  /** One declaration of the avatar's advanced-settings schema. */
  datatype SettingsEntry = SettingsEntry(name: string, machineName: string, settingType: SettingsType, setting: Setting)

  /** The parameter-name suffixes of a setting type, one per component. */
  function Suffixes(t: SettingsType): (s: seq<string>)
    ensures 1 <= |s| <= 3
    ensures forall i, j :: 0 <= i < j < |s| ==> s[i] != s[j]
  {
    match t
    case Joystick2D | InputVector2 => ["-x", "-y"]
    case Joystick3D | InputVector3 => ["-x", "-y", "-z"]
    case Color => ["-r", "-g", "-b"]
    case _ => [""]
  }

  /** The name of the parameter that holds component `k` of an entry. */
  function ParameterName(e: SettingsEntry, k: nat): string
    requires k < |Suffixes(e.settingType)|
  {
    e.machineName + Suffixes(e.settingType)[k]
  }

  /** How many components the setting's class declares a default for. */
  function Dimension(s: Setting): nat
  {
    match s
    case ToggleSetting(_) | DropdownSetting(_, _) | SliderSetting(_) | InputSingleSetting(_) => 1
    case Joystick2DSetting(_, _) | InputVector2Setting(_, _) => 2
    case Joystick3DSetting(_, _, _) | InputVector3Setting(_, _, _) | MaterialColorSetting(_, _, _) => 3
    case OtherSetting => 0
  }

  /** `AASMenuEntry.defaultValue`: the declared default as a triple, zero-padded. */
  function DefaultValue(s: Setting): (d: Vec3)
    ensures Dimension(s) < 3 ==> d.z == 0.0
    ensures Dimension(s) < 2 ==> d.y == 0.0
    ensures Dimension(s) == 0 ==> d.x == 0.0
    ensures s.ToggleSetting? ==> (d.x == 1.0 <==> s.defaultOn) && (d.x == 0.0 <==> !s.defaultOn)
    ensures s.DropdownSetting? ==> d.x == s.defaultIndex as real
  {
    match s
    case ToggleSetting(on) => Vec3(if on then 1.0 else 0.0, 0.0, 0.0)
    case DropdownSetting(index, _) => Vec3(index as real, 0.0, 0.0)
    case SliderSetting(v) => Vec3(v, 0.0, 0.0)
    case Joystick2DSetting(x, y) => Vec3(x, y, 0.0)
    case Joystick3DSetting(x, y, z) => Vec3(x, y, z)
    case InputSingleSetting(v) => Vec3(v, 0.0, 0.0)
    case InputVector2Setting(x, y) => Vec3(x, y, 0.0)
    case InputVector3Setting(x, y, z) => Vec3(x, y, z)
    case MaterialColorSetting(r, g, b) => Vec3(r, g, b)
    case OtherSetting => Vec3(0.0, 0.0, 0.0)
  }

  /** The setting object is of the class its declared type stands for. */
  predicate Consistent(e: SettingsEntry)
  {
    match e.settingType
    case Toggle => e.setting.ToggleSetting?
    case Dropdown => e.setting.DropdownSetting?
    case Slider => e.setting.SliderSetting?
    case InputSingle => e.setting.InputSingleSetting?
    case Joystick2D => e.setting.Joystick2DSetting?
    case InputVector2 => e.setting.InputVector2Setting?
    case Joystick3D => e.setting.Joystick3DSetting?
    case InputVector3 => e.setting.InputVector3Setting?
    case Color => e.setting.MaterialColorSetting?
  }

  /** For a consistent entry the suffix table covers every component its default declares. */
  lemma ConsistentDimension(e: SettingsEntry)
    requires Consistent(e)
    ensures Dimension(e.setting) == |Suffixes(e.settingType)|
    ensures forall k :: |Suffixes(e.settingType)| <= k < 3 ==> Component(DefaultValue(e.setting), k) == 0.0
  {
  }

  /** Component `k` as `SetupAASMenus` seeds it: read when the parameter exists, else left at 0. */
  function SeedComponent(values: map<string, real>, e: SettingsEntry, k: nat): real
  {
    if k < |Suffixes(e.settingType)| && ParameterName(e, k) in values then values[ParameterName(e, k)] else 0.0
  }

  /** The three cached components a freshly built entry holds. */
  function SeededValues(values: map<string, real>, e: SettingsEntry): Vec3
  {
    Vec3(SeedComponent(values, e, 0), SeedComponent(values, e, 1), SeedComponent(values, e, 2))
  }

  /** Seeding reads each of the entry's own parameters and nothing else. */
  lemma SeededFromOwnParameters(values: map<string, real>, e: SettingsEntry, k: nat)
    requires k < 3
    ensures k < |Suffixes(e.settingType)| ==> Component(SeededValues(values, e), k) == Read(values, ParameterName(e, k))
    ensures k >= |Suffixes(e.settingType)| ==> Component(SeededValues(values, e), k) == 0.0
  {
  }

  /** Only dropdown settings get option labels. */
  function MenuOptions(s: Setting): Option<seq<string>>
  {
    if s.DropdownSetting? then Some(s.optionNames) else None
  }

  /** `AASMenuEntry`: a schema entry with its cached component values. */
  class MenuEntry {
    const aasEntry: SettingsEntry
    var valueX: real
    var valueY: real
    var valueZ: real
    var menuOptions: Option<seq<string>>

    constructor (aasEntry: SettingsEntry)
      ensures this.aasEntry == aasEntry
      ensures Values() == Vec3(0.0, 0.0, 0.0) && menuOptions == None
    {
      this.aasEntry := aasEntry;
      valueX, valueY, valueZ := 0.0, 0.0, 0.0;
      menuOptions := None;
    }

    /** The cached components as a triple. */
    function Values(): Vec3
      reads this
    {
      Vec3(valueX, valueY, valueZ)
    }
  }

  /** Entries are distinct objects. */
  ghost predicate Distinct(entries: seq<MenuEntry>)
  {
    forall i, j :: 0 <= i < j < |entries| ==> entries[i] != entries[j]
  }

  /** The menu component attached to an avatar's runtime. */
  class AASMenu {
    var entries: seq<MenuEntry>
    /** The avatar's parameter store. */
    const parameters: ParameterAccess

    constructor (parameters: ParameterAccess)
      ensures this.parameters == parameters && entries == []
    {
      this.parameters := parameters;
      entries := [];
    }

    /** One entry of `SetupAASMenus`: options for a dropdown, then each suffixed parameter the store holds. */
    method CreateEntry(aasEntry: SettingsEntry) returns (menuEntry: MenuEntry)
      ensures fresh(menuEntry)
      ensures menuEntry.aasEntry == aasEntry
      ensures menuEntry.Values() == SeededValues(parameters.values, aasEntry)
      ensures menuEntry.menuOptions == MenuOptions(aasEntry.setting)
    {
      var postfixes := Suffixes(aasEntry.settingType);
      menuEntry := new MenuEntry(aasEntry);
      if aasEntry.setting.DropdownSetting? {
        menuEntry.menuOptions := Some(aasEntry.setting.optionNames);
      }
      for i := 0 to |postfixes|
        modifies menuEntry
        invariant menuEntry.menuOptions == MenuOptions(aasEntry.setting)
        invariant menuEntry.valueX == if 0 < i then SeedComponent(parameters.values, aasEntry, 0) else 0.0
        invariant menuEntry.valueY == if 1 < i then SeedComponent(parameters.values, aasEntry, 1) else 0.0
        invariant menuEntry.valueZ == if 2 < i then SeedComponent(parameters.values, aasEntry, 2) else 0.0
      {
        var found, value := parameters.GetParameter(aasEntry.machineName + postfixes[i]);
        if found {
          if i == 0 {
            menuEntry.valueX := value;
          } else if i == 1 {
            menuEntry.valueY := value;
          } else {
            menuEntry.valueZ := value;
          }
        }
      }
    }

    /**
      `SetupAASMenus`: clears the entries, then (unless the schema is missing) builds
      one fresh entry per schema declaration, in schema order, seeded from the store.
    */
    method SetupAASMenus(schema: Option<seq<SettingsEntry>>)
      modifies this
      ensures schema.None? ==> entries == []
      ensures schema.Some? ==> |entries| == |schema.value|
      ensures Distinct(entries)
      ensures forall i :: 0 <= i < |entries| ==>
        && fresh(entries[i])
        && schema.Some?
        && entries[i].aasEntry == schema.value[i]
        && entries[i].Values() == SeededValues(parameters.values, schema.value[i])
        && entries[i].menuOptions == MenuOptions(schema.value[i].setting)
    {
      entries := [];
      if schema.None? {
        return;
      }
      var settings := schema.value;
      for k := 0 to |settings|
        invariant |entries| == k
        invariant Distinct(entries)
        invariant forall i :: 0 <= i < k ==>
          && fresh(entries[i])
          && entries[i].aasEntry == settings[i]
          && entries[i].Values() == SeededValues(parameters.values, settings[i])
          && entries[i].menuOptions == MenuOptions(settings[i].setting)
      {
        var menuEntry := CreateEntry(settings[k]);
        entries := entries + [menuEntry];
      }
    }
  }
}
