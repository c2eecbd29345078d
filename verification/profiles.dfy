/**
  The profile manager: named snapshots of the avatar's parameter values. The
  name "Default" is listed after every reset; loading it applies the schema's
  declared defaults rather than anything stored under that name. Disk access is reduced to two values: the
  profile set read when the manager is set up, and the last snapshot written.
*/
module Profiles {

  import opened Common
  import opened Parameters
  import opened Menu

  const DefaultProfileName: string := "Default"
  const NilAvatarId: string := "00000000-0000-0000-0000-000000000000"

  datatype ProfileValue = ProfileValue(name: string, value: real)
  datatype ProfileData = ProfileData(profileName: string, values: seq<ProfileValue>)

  /** The content of a profile file as read back; `savedSettings` is `None` when the file's list is null. */
  datatype AvatarProfiles = AvatarProfiles(avatarid: string, savedSettings: Option<seq<ProfileData>>, defaultProfileName: string)

  /** What reading the profile file yields. */
  datatype ProfileFile =
    | NoFile                          // no file at the path: nothing is read
    | Unparsable                      // the JSON does not deserialize: the exception is caught
    | NullDocument                    // the JSON deserializes to null
    | Document(content: AvatarProfiles)

  /**
    The saved profiles the load walks over: none when the directory or the file is
    missing, the content does not deserialize or is null, or its list is null (the
    null dereference is caught before anything is added).
  */
  function SavedList(hasProfileDirectory: bool, file: ProfileFile): Option<seq<ProfileData>>
  {
    if hasProfileDirectory && file.Document? then file.content.savedSettings else None
  }

  /** What a write of the profile file carries; the order of the saved profiles in the file is not modelled. */
  datatype ProfileSnapshot = ProfileSnapshot(avatarid: string, savedSettings: map<string, ProfileData>, defaultProfileName: string)

  /** The id the profile file is named after: a missing or empty avatar id becomes the nil UUID. */
  function ProfileFileId(avatarId: Option<string>): (id: string)
    ensures id != ""
    ensures (avatarId.None? || avatarId.value == "") ==> id == NilAvatarId
    ensures (avatarId.Some? && avatarId.value != "") ==> id == avatarId.value
  {
    if avatarId.None? || avatarId.value == "" then NilAvatarId else avatarId.value
  }

  /** The writes `LoadDefaultProfile` performs for one menu entry. */
  function DefaultWrites(e: SettingsEntry): seq<(string, real)>
  {
    var d := DefaultValue(e.setting);
    var m := e.machineName;
    match e.settingType
    case Color => [(m + "-r", d.x), (m + "-g", d.y), (m + "-b", d.z)]
    case InputVector2 | Joystick2D => [(m + "-x", d.x), (m + "-y", d.y)]
    case InputVector3 | Joystick3D => [(m + "-x", d.x), (m + "-y", d.y), (m + "-z", d.z)]
    case _ => [(m, d.x)]
  }

  /** The default profile writes component `k` of the default to the parameter the menu seeds component `k` from. */
  lemma DefaultWritesFollowSuffixes(e: SettingsEntry)
    ensures |DefaultWrites(e)| == |Suffixes(e.settingType)|
    ensures forall k :: 0 <= k < |DefaultWrites(e)| ==>
      DefaultWrites(e)[k] == (ParameterName(e, k), Component(DefaultValue(e.setting), k))
  {
    match e.settingType {
      case Color =>
      case InputVector2 | Joystick2D =>
      case InputVector3 | Joystick3D =>
      case _ =>
        assert e.machineName + "" == e.machineName;
    }
  }

  /** The parameter names of one entry are pairwise different. */
  lemma ParameterNamesDistinct(e: SettingsEntry, i: nat, j: nat)
    requires i < j < |Suffixes(e.settingType)|
    ensures ParameterName(e, i) != ParameterName(e, j)
  {
    var m := e.machineName;
    assert ParameterName(e, i)[|m|..] == Suffixes(e.settingType)[i];
    assert ParameterName(e, j)[|m|..] == Suffixes(e.settingType)[j];
  }

  /**
    Loading the defaults and then building the menu entry again shows the declared
    default in every component, when the entry is consistent and its parameters exist.
  */
  lemma DefaultsThenSeed(values: map<string, real>, e: SettingsEntry)
    requires Consistent(e)
    requires forall k :: 0 <= k < |Suffixes(e.settingType)| ==> ParameterName(e, k) in values
    ensures SeededValues(WriteAll(values, DefaultWrites(e)), e) == DefaultValue(e.setting)
  {
    var w := DefaultWrites(e);
    DefaultWritesFollowSuffixes(e);
    ConsistentDimension(e);
    forall i, j | 0 <= i < j < |w|
      ensures w[i].0 != w[j].0
    {
      ParameterNamesDistinct(e, i, j);
    }
    forall k | 0 <= k < |w|
      ensures SeedComponent(WriteAll(values, w), e, k) == Component(DefaultValue(e.setting), k)
    {
      LastWriteOfDistinct(w, k);
      WriteAllLastWins(values, w, w[k].0);
    }
    assert forall k :: |w| <= k < 3 ==> SeedComponent(WriteAll(values, w), e, k) == 0.0;
  }

  /** One entry's default writes, applied one after the other. */
  lemma DefaultWritesApplied(values: map<string, real>, e: SettingsEntry)
    ensures var d, m := DefaultValue(e.setting), e.machineName;
      WriteAll(values, DefaultWrites(e)) == match e.settingType
        case Color => Write(Write(Write(values, m + "-r", d.x), m + "-g", d.y), m + "-b", d.z)
        case InputVector2 | Joystick2D => Write(Write(values, m + "-x", d.x), m + "-y", d.y)
        case InputVector3 | Joystick3D => Write(Write(Write(values, m + "-x", d.x), m + "-y", d.y), m + "-z", d.z)
        case _ => Write(values, m, d.x)
  {
    var w := DefaultWrites(e);
    assert w[..0] == [];
    if |w| >= 2 {
      assert w[..1] == [w[0]];
      assert WriteAll(values, w[..1]) == Write(values, w[0].0, w[0].1);
    }
    if |w| == 3 {
      assert w[..2] == [w[0], w[1]];
      assert w[..2][..1] == w[..1];
    }
  }

  /** The schema declarations behind a list of menu entries. */
  function EntriesOf(entries: seq<MenuEntry>): (es: seq<SettingsEntry>)
    ensures |es| == |entries|
    ensures forall i :: 0 <= i < |entries| ==> es[i] == entries[i].aasEntry
  {
    seq(|entries|, i requires 0 <= i < |entries| => entries[i].aasEntry)
  }

  /** Every write of `LoadDefaultProfile`, entry by entry in menu order. */
  function AllDefaultWrites(es: seq<SettingsEntry>): seq<(string, real)>
  {
    if es == [] then [] else AllDefaultWrites(es[..|es| - 1]) + DefaultWrites(es[|es| - 1])
  }

  /** A stored profile's values as writes, in list order. */
  function PairsOf(values: seq<ProfileValue>): (w: seq<(string, real)>)
    ensures |w| == |values|
    ensures forall i :: 0 <= i < |values| ==> w[i] == (values[i].name, values[i].value)
  {
    seq(|values|, i requires 0 <= i < |values| => (values[i].name, values[i].value))
  }

  /** The writes `LoadProfile(name)` performs: the defaults for "Default", the stored values for a known name, none otherwise. */
  function LoadWrites(name: string, profiles: map<string, ProfileData>, es: seq<SettingsEntry>): seq<(string, real)>
  {
    if name == DefaultProfileName then AllDefaultWrites(es)
    else if name in profiles then PairsOf(profiles[name].values)
    else []
  }

  /** Whether `LoadProfile(name)` gets as far as refreshing the menu entries. */
  predicate LoadsSomething(name: string, profiles: map<string, ProfileData>)
  {
    name == DefaultProfileName || name in profiles
  }

  /** The parameter suffixes `UpdateAASMenuEntries` reads back; two-component types also read "-z". */
  function RefreshSuffixes(t: SettingsType): seq<string>
  {
    match t
    case Color => ["-r", "-g", "-b"]
    case InputVector2 | Joystick2D | InputVector3 | Joystick3D => ["-x", "-y", "-z"]
    case _ => [""]
  }

  /** An entry's components after `UpdateAASMenuEntries`; an unknown parameter reads as 0. */
  function Refreshed(values: map<string, real>, e: SettingsEntry, current: Vec3): Vec3
  {
    var s := RefreshSuffixes(e.settingType);
    var m := e.machineName;
    if |s| == 3 then Vec3(Read(values, m + s[0]), Read(values, m + s[1]), Read(values, m + s[2]))
    else Vec3(Read(values, m), current.y, current.z)
  }

  /**
    Refreshing re-reads every component the menu was seeded from; for two-component
    types it also overwrites z with the value of the "-z" parameter, or 0.
  */
  lemma RefreshAgreesWithSeed(values: map<string, real>, e: SettingsEntry, current: Vec3, k: nat)
    requires k < |Suffixes(e.settingType)|
    ensures Component(Refreshed(values, e, current), k) == Component(SeededValues(values, e), k)
    ensures |Suffixes(e.settingType)| == 2 ==> Refreshed(values, e, current).z == Read(values, e.machineName + "-z")
    ensures |Suffixes(e.settingType)| == 1 ==> Refreshed(values, e, current).y == current.y && Refreshed(values, e, current).z == current.z
  {
    match e.settingType {
      case Color =>
      case InputVector2 | Joystick2D =>
      case InputVector3 | Joystick3D =>
      case _ =>
        assert e.machineName + "" == e.machineName;
    }
  }

  /** The values `SaveProfile` captures: every enumerated parameter `CanSaveToProfile` admits, in enumeration order. */
  function SavedValues(defs: seq<ParameterDefinition>): seq<ProfileValue>
  {
    if defs == [] then []
    else
      var n := |defs| - 1;
      SavedValues(defs[..n]) + if defs[n].canSaveToProfile then [ProfileValue(defs[n].name, defs[n].value)] else []
  }

  /** A profile holds exactly the savable parameters, each with its value at save time. */
  lemma {:induction false} SavedValuesExact(defs: seq<ParameterDefinition>, v: ProfileValue)
    ensures v in SavedValues(defs) <==>
      exists i :: 0 <= i < |defs| && defs[i].canSaveToProfile && defs[i].name == v.name && defs[i].value == v.value
  {
    if defs != [] {
      var n := |defs| - 1;
      SavedValuesExact(defs[..n], v);
      assert forall i :: 0 <= i < n ==> defs[..n][i] == defs[i];
    }
  }

  /** The last write a saved profile makes to a name comes from the last savable definition of that name. */
  lemma LastSavedWriteStep(defs: seq<ParameterDefinition>, name: string)
    requires defs != []
    ensures var n := |defs| - 1;
      LastWrite(PairsOf(SavedValues(defs)), name) ==
        if defs[n].canSaveToProfile && defs[n].name == name then Some(defs[n].value)
        else LastWrite(PairsOf(SavedValues(defs[..n])), name)
  {
    var n := |defs| - 1;
    var prefix := SavedValues(defs[..n]);
    if defs[n].canSaveToProfile {
      var w := PairsOf(SavedValues(defs));
      assert SavedValues(defs) == prefix + [ProfileValue(defs[n].name, defs[n].value)];
      assert w[..|w| - 1] == PairsOf(prefix);
      assert w[|w| - 1] == (defs[n].name, defs[n].value);
    } else {
      assert SavedValues(defs) == prefix;
    }
  }

  /** The last write a saved profile makes to a name, when every enumerated parameter of that name holds `c`. */
  lemma {:induction false} LastSavedWrite(defs: seq<ParameterDefinition>, name: string, c: real)
    requires forall i :: 0 <= i < |defs| && defs[i].name == name ==> defs[i].value == c
    ensures LastWrite(PairsOf(SavedValues(defs)), name) ==
      if exists i :: 0 <= i < |defs| && defs[i].name == name && defs[i].canSaveToProfile then Some(c) else None
  {
    if defs != [] {
      var n := |defs| - 1;
      var init := defs[..n];
      forall i | 0 <= i < |init| && init[i].name == name
        ensures init[i].value == c
      {
        assert init[i] == defs[i];
      }
      LastSavedWrite(init, name, c);
      LastSavedWriteStep(defs, name);
      if defs[n].canSaveToProfile && defs[n].name == name {
        assert defs[n].name == name && defs[n].canSaveToProfile;
      } else if exists i :: 0 <= i < |defs| && defs[i].name == name && defs[i].canSaveToProfile {
        // the last definition saves nothing under `name`, so the witness is one of the prefix
        var i :| 0 <= i < |defs| && defs[i].name == name && defs[i].canSaveToProfile;
        assert i < n && init[i] == defs[i];
      }
    }
  }

  /**
    Saving a profile and loading it back, whatever was written in between, restores
    every savable registered parameter to its value at save time and leaves every
    other parameter as it was just before the load.
  */
  lemma SaveLoadRoundTrip(names: seq<string>, atSave: map<string, real>, savable: set<string>, beforeLoad: map<string, real>, name: string)
    requires name in beforeLoad
    ensures var restored := WriteAll(beforeLoad, PairsOf(SavedValues(Definitions(names, atSave, savable))));
      && (name in names && name in savable ==> restored[name] == Read(atSave, name))
      && (name !in names || name !in savable ==> restored[name] == beforeLoad[name])
  {
    var defs := Definitions(names, atSave, savable);
    LastSavedWrite(defs, name, Read(atSave, name));
    WriteAllLastWins(beforeLoad, PairsOf(SavedValues(defs)), name);
    if name in names && name in savable {
      var i :| 0 <= i < |names| && names[i] == name;
      assert defs[i].name == name && defs[i].canSaveToProfile;
    }
  }

  /**
    Adding the profiles read from disk, in file order. `Dictionary.Add` throws on a
    duplicate name; the exception is caught, so the profiles added before it stay
    and the flag reports that the rest of the load was skipped.
  */
  function LoadSaved(profiles: map<string, ProfileData>, names: seq<string>, saved: seq<ProfileData>): (map<string, ProfileData>, seq<string>, bool)
    decreases |saved|
  {
    if saved == [] then (profiles, names, true)
    else if saved[0].profileName in profiles then (profiles, names, false)
    else LoadSaved(profiles[saved[0].profileName := saved[0]], names + [saved[0].profileName], saved[1..])
  }

  /** The manager's invariants over its profile collections. */
  ghost predicate ProfilesValid(profiles: map<string, ProfileData>, names: seq<string>)
  {
    && (forall n :: n in profiles ==> profiles[n].profileName == n)
    && (forall n :: n in profiles ==> n in names)
  }

  /**
    Loading from disk keeps the invariants, keeps the names already listed at the
    front, and lists every loaded profile.
  */
  lemma {:induction false} LoadSavedValid(profiles: map<string, ProfileData>, names: seq<string>, saved: seq<ProfileData>)
    requires ProfilesValid(profiles, names)
    ensures var (p, n, _) := LoadSaved(profiles, names, saved);
      && ProfilesValid(p, n)
      && |names| <= |n| && n[..|names|] == names
      && profiles.Keys <= p.Keys
    decreases |saved|
  {
    if saved != [] && saved[0].profileName !in profiles {
      var name := saved[0].profileName;
      LoadSavedValid(profiles[name := saved[0]], names + [name], saved[1..]);
      var (p, n, _) := LoadSaved(profiles[name := saved[0]], names + [name], saved[1..]);
      assert n[..|names|] == (n[..|names| + 1])[..|names|];
    }
  }

  /**
    Loading from disk lists the added profiles' names after the names already
    there, in file order; the flag says whether the whole list was added.
  */
  lemma {:induction false} LoadSavedListing(profiles: map<string, ProfileData>, names: seq<string>, saved: seq<ProfileData>)
    ensures var (p, n, ok) := LoadSaved(profiles, names, saved);
      && |names| <= |n| <= |names| + |saved|
      && n[..|names|] == names
      && (forall i :: 0 <= i < |n| - |names| ==> n[|names| + i] == saved[i].profileName)
      && (ok <==> |n| - |names| == |saved|)
    decreases |saved|
  {
    if saved != [] && saved[0].profileName !in profiles {
      var name := saved[0].profileName;
      var profiles1, names1 := profiles[name := saved[0]], names + [name];
      LoadSavedListing(profiles1, names1, saved[1..]);
      var (p, n, ok) := LoadSaved(profiles1, names1, saved[1..]);
      assert n[..|names|] == n[..|names1|][..|names|];
      assert n[|names|] == n[..|names1|][|names|];
      forall i | 1 <= i < |n| - |names|
        ensures n[|names| + i] == saved[i].profileName
      {
        assert n[|names1| + (i - 1)] == saved[1..][i - 1].profileName;
      }
    }
  }

  /**
    Loading from disk keeps every profile stored before, stores each added profile
    under its own name, and stores nothing else: a name is stored afterwards exactly
    when it was before or the load listed it.
  */
  lemma {:induction false} LoadSavedStores(profiles: map<string, ProfileData>, names: seq<string>, saved: seq<ProfileData>)
    ensures var (p, n, ok) := LoadSaved(profiles, names, saved);
      && |names| <= |n|
      && (forall x :: x in profiles ==> x in p && p[x] == profiles[x])
      && (forall i :: 0 <= i < |n| - |names| && i < |saved| ==>
            saved[i].profileName !in profiles && saved[i].profileName in p && p[saved[i].profileName] == saved[i])
      && (forall x :: x in p ==> x in profiles || x in n[|names|..])
    decreases |saved|
  {
    LoadSavedListing(profiles, names, saved);
    if saved != [] && saved[0].profileName !in profiles {
      var name := saved[0].profileName;
      var profiles1, names1 := profiles[name := saved[0]], names + [name];
      LoadSavedStores(profiles1, names1, saved[1..]);
      LoadSavedListing(profiles1, names1, saved[1..]);
      var (p, n, ok) := LoadSaved(profiles1, names1, saved[1..]);
      forall i | 1 <= i < |n| - |names| && i < |saved|
        ensures saved[i].profileName !in profiles && saved[i].profileName in p && p[saved[i].profileName] == saved[i]
      {
        assert saved[1..][i - 1] == saved[i];
      }
      forall x | x in p
        ensures x in profiles || x in n[|names|..]
      {
        assert n[|names|] == name;
        assert n[|names1|..] == n[|names|..][1..];
      }
    }
  }

  /**
    Loading from disk adds profiles with pairwise different names, and stops only
    at a profile whose name is already stored, before the load or earlier in the file.
  */
  lemma {:induction false} LoadSavedStopsAtRepeat(profiles: map<string, ProfileData>, names: seq<string>, saved: seq<ProfileData>)
    ensures var (p, n, ok) := LoadSaved(profiles, names, saved);
      var k := |n| - |names|;
      && 0 <= k <= |saved|
      && (forall i, j :: 0 <= i < j < k ==> saved[i].profileName != saved[j].profileName)
      && (k < |saved| ==> saved[k].profileName in profiles || exists i :: 0 <= i < k && saved[i].profileName == saved[k].profileName)
    decreases |saved|
  {
    LoadSavedListing(profiles, names, saved);
    LoadSavedStores(profiles, names, saved);
    if saved != [] && saved[0].profileName !in profiles {
      var name := saved[0].profileName;
      var profiles1, names1 := profiles[name := saved[0]], names + [name];
      LoadSavedStopsAtRepeat(profiles1, names1, saved[1..]);
      LoadSavedStores(profiles1, names1, saved[1..]);
      var (p, n, ok) := LoadSaved(profiles1, names1, saved[1..]);
      var k := |n| - |names|;
      forall i, j | 0 <= i < j < k
        ensures saved[i].profileName != saved[j].profileName
      {
        assert saved[1..][j - 1] == saved[j];
        if i > 0 {
          assert saved[1..][i - 1] == saved[i];
        }
      }
      if k < |saved| && saved[k].profileName !in profiles {
        assert saved[1..][k - 1] == saved[k];
        if saved[k].profileName != name {
          var i :| 0 <= i < k - 1 && saved[1..][i].profileName == saved[k].profileName;
          assert saved[i + 1].profileName == saved[k].profileName;
        }
      }
    }
  }

  /** `List.Remove`: drops the first occurrence of `x`, if any. */
  function RemoveFirst(s: seq<string>, x: string): seq<string>
  {
    if s == [] then []
    else if s[0] == x then s[1..]
    else [s[0]] + RemoveFirst(s[1..], x)
  }

  /** Removing a listed name drops exactly one occurrence of it and nothing else. */
  lemma {:induction false} RemoveFirstExact(s: seq<string>, x: string)
    ensures x in s ==> multiset(RemoveFirst(s, x)) == multiset(s) - multiset{x}
    ensures x !in s ==> RemoveFirst(s, x) == s
    ensures forall y :: y != x ==> (y in RemoveFirst(s, x) <==> y in s)
  {
    if s != [] {
      RemoveFirstExact(s[1..], x);
      assert s == [s[0]] + s[1..];
      if s[0] != x {
        var rest := RemoveFirst(s[1..], x);
        assert RemoveFirst(s, x) == [s[0]] + rest;
        assert multiset(RemoveFirst(s, x)) == multiset{s[0]} + multiset(rest);
      }
    }
  }

  /** What the manager holds after reset and the load from disk, before a profile is applied. */
  function SetupState(hasProfileDirectory: bool, file: ProfileFile): (map<string, ProfileData>, seq<string>, string)
  {
    var saved := SavedList(hasProfileDirectory, file);
    if saved.None? then (map[], [DefaultProfileName], "")
    else
      var (p, n, ok) := LoadSaved(map[], [DefaultProfileName], saved.value);
      (p, n, if ok then file.content.defaultProfileName else "")
  }

  /** Whether the profiles object exists after a load: a null document drops it, a document replaces it. */
  function ProfilesObjectAfter(hasProfileDirectory: bool, file: ProfileFile, before: bool): bool
  {
    if hasProfileDirectory && file.NullDocument? then false
    else if hasProfileDirectory && file.Document? then true
    else before
  }

  /** `AvatarProfileManager`. */
  class AvatarProfileManager {
    /** The avatar's parameter store. */
    const parameters: ParameterAccess
    /** The menu's entries, shared with the menu: only the default profile and the refresh use them. */
    const menuEntries: seq<MenuEntry>
    const avatarId: string
    /** Whether a profile directory resolves; when it does not, reads and writes of the file are skipped. */
    const hasProfileDirectory: bool
    var selectedProfileName: string
    var profileNames: seq<string>
    var profiles: map<string, ProfileData>
    /**
      Whether the profiles object the file is written from exists. It starts out
      created; a file whose content deserializes to null leaves it null, and every
      write after that fails on it and is caught.
    */
    var hasProfilesObject: bool
    /** The last snapshot written to the profile file. */
    var written: Option<ProfileSnapshot>

    ghost predicate Valid()
      reads this
    {
      Distinct(menuEntries) && ProfilesValid(profiles, profileNames)
    }

    constructor (avatarId: Option<string>, parameters: ParameterAccess, menuEntries: seq<MenuEntry>, hasProfileDirectory: bool)
      requires Distinct(menuEntries)
      ensures Valid()
      ensures this.avatarId == ProfileFileId(avatarId)
      ensures this.parameters == parameters && this.menuEntries == menuEntries
      ensures this.hasProfileDirectory == hasProfileDirectory
      ensures selectedProfileName == "" && profileNames == [] && profiles == map[] && written == None
      ensures hasProfilesObject
    {
      this.avatarId := ProfileFileId(avatarId);
      this.parameters := parameters;
      this.menuEntries := menuEntries;
      this.hasProfileDirectory := hasProfileDirectory;
      selectedProfileName := "";
      profileNames := [];
      profiles := map[];
      hasProfilesObject := true;
      written := None;
    }

    /** `SetupManager`: reset, load from disk, then apply the remembered profile if it is stored. */
    method SetupManager(file: ProfileFile)
      requires Valid()
      modifies this, parameters, menuEntries
      ensures Valid()
      ensures (profiles, profileNames) == (SetupState(hasProfileDirectory, file).0, SetupState(hasProfileDirectory, file).1)
      ensures selectedProfileName == SetupState(hasProfileDirectory, file).2
      ensures hasProfilesObject == ProfilesObjectAfter(hasProfileDirectory, file, old(hasProfilesObject))
      ensures written == old(written)
      ensures var sel := selectedProfileName;
        if sel != "" && sel in profiles then
          && parameters.values == WriteAll(old(parameters.values), LoadWrites(sel, profiles, EntriesOf(menuEntries)))
          && (forall i :: 0 <= i < |menuEntries| ==>
                menuEntries[i].Values() == Refreshed(parameters.values, menuEntries[i].aasEntry, old(menuEntries[i].Values())))
        else
          && parameters.values == old(parameters.values)
          && (forall i :: 0 <= i < |menuEntries| ==> menuEntries[i].Values() == old(menuEntries[i].Values()))
      ensures forall i :: 0 <= i < |menuEntries| ==> menuEntries[i].menuOptions == old(menuEntries[i].menuOptions)
    {
      ResetProfileData();
      LoadProfileDataFromDisk(file);
      if selectedProfileName != "" && selectedProfileName in profiles {
        LoadProfile(selectedProfileName);
      }
    }

    /** `ResetProfileData`: only "Default" listed, nothing stored, nothing selected. */
    method ResetProfileData()
      requires Valid()
      modifies this
      ensures Valid()
      ensures profileNames == [DefaultProfileName] && profiles == map[] && selectedProfileName == ""
      ensures hasProfilesObject == old(hasProfilesObject) && written == old(written)
    {
      profileNames := [];
      profiles := map[];
      profileNames := profileNames + [DefaultProfileName];
      selectedProfileName := "";
    }

    /**
      `LoadProfileDataFromDisk` with the file's content as input. Nothing is read
      without a profile directory or a file. A null document drops the profiles
      object; any document replaces it, and its profiles are added in file order
      up to the first duplicate name, when its list is not null.
    */
    method LoadProfileDataFromDisk(file: ProfileFile)
      requires Valid()
      modifies this
      ensures Valid()
      ensures written == old(written)
      ensures hasProfilesObject == ProfilesObjectAfter(hasProfileDirectory, file, old(hasProfilesObject))
      ensures SavedList(hasProfileDirectory, file).None? ==>
        profiles == old(profiles) && profileNames == old(profileNames) && selectedProfileName == old(selectedProfileName)
      ensures SavedList(hasProfileDirectory, file).Some? ==>
        var (p, n, ok) := LoadSaved(old(profiles), old(profileNames), SavedList(hasProfileDirectory, file).value);
        && profiles == p && profileNames == n
        && selectedProfileName == if ok then file.content.defaultProfileName else old(selectedProfileName)
    {
      if !hasProfileDirectory || file.NoFile? || file.Unparsable? {
        return;
      }
      if file.NullDocument? {
        hasProfilesObject := false;
        return;
      }
      hasProfilesObject := true;
      if file.content.savedSettings.None? {
        return;
      }
      var saved := file.content.savedSettings.value;
      LoadSavedValid(profiles, profileNames, saved);
      for i := 0 to |saved|
        invariant ProfilesValid(profiles, profileNames)
        invariant LoadSaved(profiles, profileNames, saved[i..]) == LoadSaved(old(profiles), old(profileNames), saved)
        invariant hasProfilesObject && written == old(written) && selectedProfileName == old(selectedProfileName)
      {
        var profileData := saved[i];
        assert saved[i..][1..] == saved[i + 1..];
        if profileData.profileName in profiles {
          return;
        }
        profiles := profiles[profileData.profileName := profileData];
        profileNames := profileNames + [profileData.profileName];
      }
      selectedProfileName := file.content.defaultProfileName;
    }

    /** `LoadDefaultProfile`: writes each entry's declared default to its parameters. */
    method LoadDefaultProfile()
      modifies parameters
      ensures parameters.values == WriteAll(old(parameters.values), AllDefaultWrites(EntriesOf(menuEntries)))
    {
      var es := EntriesOf(menuEntries);
      for i := 0 to |menuEntries|
        invariant parameters.values == WriteAll(old(parameters.values), AllDefaultWrites(es[..i]))
      {
        var menuEntry := menuEntries[i];
        var defaultValue := DefaultValue(menuEntry.aasEntry.setting);
        var m := menuEntry.aasEntry.machineName;
        ghost var before := parameters.values;
        match menuEntry.aasEntry.settingType {
          case Color =>
            parameters.SetParameter(m + "-r", defaultValue.x);
            parameters.SetParameter(m + "-g", defaultValue.y);
            parameters.SetParameter(m + "-b", defaultValue.z);
          case InputVector2 | Joystick2D =>
            parameters.SetParameter(m + "-x", defaultValue.x);
            parameters.SetParameter(m + "-y", defaultValue.y);
          case InputVector3 | Joystick3D =>
            parameters.SetParameter(m + "-x", defaultValue.x);
            parameters.SetParameter(m + "-y", defaultValue.y);
            parameters.SetParameter(m + "-z", defaultValue.z);
          case _ =>
            parameters.SetParameter(m, defaultValue.x);
        }
        DefaultWritesApplied(before, es[i]);
        WriteAllAppend(old(parameters.values), AllDefaultWrites(es[..i]), DefaultWrites(es[i]));
        assert es[..i + 1][..i] == es[..i];
      }
      assert es[..|menuEntries|] == es;
    }

    /** `LoadProfile`: selects the name, applies the defaults or the stored values, then refreshes the entries. */
    method LoadProfile(profileName: string)
      requires Valid()
      modifies this, parameters, menuEntries
      ensures Valid()
      ensures selectedProfileName == profileName
      ensures profiles == old(profiles) && profileNames == old(profileNames)
      ensures hasProfilesObject == old(hasProfilesObject) && written == old(written)
      ensures parameters.values == WriteAll(old(parameters.values), LoadWrites(profileName, profiles, EntriesOf(menuEntries)))
      ensures LoadsSomething(profileName, profiles) ==>
        forall i :: 0 <= i < |menuEntries| ==>
          menuEntries[i].Values() == Refreshed(parameters.values, menuEntries[i].aasEntry, old(menuEntries[i].Values()))
      ensures !LoadsSomething(profileName, profiles) ==>
        forall i :: 0 <= i < |menuEntries| ==> menuEntries[i].Values() == old(menuEntries[i].Values())
      ensures forall i :: 0 <= i < |menuEntries| ==> menuEntries[i].menuOptions == old(menuEntries[i].menuOptions)
    {
      selectedProfileName := profileName;

      if profileName == DefaultProfileName {
        LoadDefaultProfile();
        UpdateAASMenuEntries();
        return;
      }

      if profileName !in profiles {
        return;
      }

      var profileValues := profiles[profileName].values;
      for i := 0 to |profileValues|
        modifies parameters
        invariant parameters.values == WriteAll(old(parameters.values), PairsOf(profileValues[..i]))
      {
        parameters.SetParameter(profileValues[i].name, profileValues[i].value);
        assert PairsOf(profileValues[..i + 1])[..i] == PairsOf(profileValues[..i]);
      }
      assert profileValues[..|profileValues|] == profileValues;

      UpdateAASMenuEntries();
    }

    /** `SaveProfile`: stores the savable values under the name, listing a new name once, then writes the file. */
    method SaveProfile(profileName: string)
      requires Valid()
      modifies this
      ensures Valid()
      ensures profiles == old(profiles)[profileName := ProfileData(profileName, SavedValues(parameters.GetParameters()))]
      ensures profileNames == if profileName in old(profiles) then old(profileNames) else old(profileNames) + [profileName]
      ensures selectedProfileName == old(selectedProfileName)
      ensures written == Written(old(written))
      ensures hasProfilesObject == old(hasProfilesObject)
    {
      var defs := parameters.GetParameters();
      var values: seq<ProfileValue> := [];
      for i := 0 to |defs|
        invariant values == SavedValues(defs[..i])
      {
        assert defs[..i + 1][..i] == defs[..i];
        var parameter := defs[i];
        if !parameter.canSaveToProfile {
          continue;
        }
        values := values + [ProfileValue(parameter.name, parameter.value)];
      }
      assert defs[..|defs|] == defs;

      var profileData := ProfileData(profileName, values);
      if profileName !in profiles {
        profiles := profiles[profileName := profileData];
        profileNames := profileNames + [profileName];
      } else {
        profiles := profiles[profileName := profileData];
      }
      WriteProfileDataToDisk();
    }

    /** `DeleteProfile`: removes a stored name from both collections, then writes the file. */
    method DeleteProfile(profileName: string)
      requires Valid()
      modifies this
      ensures Valid()
      ensures profileName in old(profiles) ==> profiles == old(profiles) - {profileName} && profileNames == RemoveFirst(old(profileNames), profileName)
      ensures profileName !in old(profiles) ==> profiles == old(profiles) && profileNames == old(profileNames)
      ensures selectedProfileName == old(selectedProfileName)
      ensures written == Written(old(written))
      ensures hasProfilesObject == old(hasProfilesObject)
    {
      if profileName in profiles {
        RemoveFirstExact(profileNames, profileName);
        profiles := profiles - {profileName};
        profileNames := RemoveFirst(profileNames, profileName);
      }
      WriteProfileDataToDisk();
    }

    /** `CreateProfile`: an existing name changes nothing; a new one gets an empty profile, listed last, not selected. */
    method CreateProfile(profileName: string)
      requires Valid()
      modifies this
      ensures Valid()
      ensures profileName in old(profiles) ==> profiles == old(profiles) && profileNames == old(profileNames) && written == old(written)
      ensures profileName !in old(profiles) ==>
        && profiles == old(profiles)[profileName := ProfileData(profileName, [])]
        && profileNames == old(profileNames) + [profileName]
        && written == Written(old(written))
      ensures selectedProfileName == old(selectedProfileName)
      ensures hasProfilesObject == old(hasProfilesObject)
    {
      if profileName in profiles {
        return;
      }
      profiles := profiles[profileName := ProfileData(profileName, [])];
      profileNames := profileNames + [profileName];
      WriteProfileDataToDisk();
    }

    /** `SetDefaultProfile`: selects a stored name and writes the file; any other name changes nothing. */
    method SetDefaultProfile(profileName: string)
      requires Valid()
      modifies this
      ensures Valid()
      ensures profiles == old(profiles) && profileNames == old(profileNames)
      ensures profileName in profiles ==> selectedProfileName == profileName && written == Written(old(written))
      ensures profileName !in profiles ==> selectedProfileName == old(selectedProfileName) && written == old(written)
      ensures hasProfilesObject == old(hasProfilesObject)
    {
      if profileName in profiles {
        selectedProfileName := profileName;
        WriteProfileDataToDisk();
      }
    }

    /**
      `WriteProfileDataToDisk`: without a profile directory nothing is written, and
      with the profiles object null the write fails and is caught; otherwise the file
      records the avatar id, every stored profile and the selected name.
    */
    method WriteProfileDataToDisk()
      modifies this`written
      ensures written == Written(old(written))
      ensures hasProfileDirectory && hasProfilesObject ==> written == Some(ProfileSnapshot(avatarId, profiles, selectedProfileName))
      ensures !hasProfileDirectory || !hasProfilesObject ==> written == old(written)
    {
      if !hasProfileDirectory || !hasProfilesObject {
        return;
      }
      written := Some(ProfileSnapshot(avatarId, profiles, selectedProfileName));
    }

    /** The file content after a write attempt, given what was there before. */
    function Written(before: Option<ProfileSnapshot>): Option<ProfileSnapshot>
      reads this
    {
      if hasProfileDirectory && hasProfilesObject then Some(ProfileSnapshot(avatarId, profiles, selectedProfileName)) else before
    }

    /** `UpdateAASMenuEntries`: re-reads every entry's components from the store. */
    method UpdateAASMenuEntries()
      requires Distinct(menuEntries)
      modifies menuEntries
      ensures forall i :: 0 <= i < |menuEntries| ==>
        menuEntries[i].Values() == Refreshed(parameters.values, menuEntries[i].aasEntry, old(menuEntries[i].Values()))
      ensures forall i :: 0 <= i < |menuEntries| ==> menuEntries[i].menuOptions == old(menuEntries[i].menuOptions)
    {
      for i := 0 to |menuEntries|
        invariant forall j :: 0 <= j < i ==>
          menuEntries[j].Values() == Refreshed(parameters.values, menuEntries[j].aasEntry, old(menuEntries[j].Values()))
        invariant forall j :: i <= j < |menuEntries| ==> menuEntries[j].Values() == old(menuEntries[j].Values())
        invariant forall j :: 0 <= j < |menuEntries| ==> menuEntries[j].menuOptions == old(menuEntries[j].menuOptions)
      {
        RefreshEntry(menuEntries[i]);
      }
    }

    /** The body of the `UpdateAASMenuEntries` loop: one entry's components, re-read by its type's suffixes. */
    method RefreshEntry(menuEntry: MenuEntry)
      modifies menuEntry`valueX, menuEntry`valueY, menuEntry`valueZ
      ensures menuEntry.Values() == Refreshed(parameters.values, menuEntry.aasEntry, old(menuEntry.Values()))
    {
      var m := menuEntry.aasEntry.machineName;
      var found: bool;
      match menuEntry.aasEntry.settingType {
        case Color =>
          found, menuEntry.valueX := parameters.GetParameter(m + "-r");
          found, menuEntry.valueY := parameters.GetParameter(m + "-g");
          found, menuEntry.valueZ := parameters.GetParameter(m + "-b");
        case InputVector2 | Joystick2D | InputVector3 | Joystick3D =>
          found, menuEntry.valueX := parameters.GetParameter(m + "-x");
          found, menuEntry.valueY := parameters.GetParameter(m + "-y");
          found, menuEntry.valueZ := parameters.GetParameter(m + "-z");
        case _ =>
          found, menuEntry.valueX := parameters.GetParameter(m);
      }
    }
  }
}
