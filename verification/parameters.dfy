/**
  The parameter store that every component reads and writes: a map from the
  names of the avatar's registered animator parameters to their current value.
  The store's own class is not part of this model; this module gives the
  behaviour its callers rely on. A write to an unknown name does nothing, and a
  read of an unknown name reports failure and yields 0 -- the value the Add,
  Subtract and Toggle tasks then compute with.
*/
module Parameters {

  import opened Common

  /** One registered parameter as `GetParameters` enumerates it. */
  datatype ParameterDefinition = ParameterDefinition(name: string, value: real, canSaveToProfile: bool)

  /** The value a read yields: the stored value of a known name, 0 for an unknown one. */
  function Read(values: map<string, real>, name: string): real
  {
    if name in values then values[name] else 0.0
  }

  /** A write: replaces the value of a known name and ignores an unknown one. */
  function Write(values: map<string, real>, name: string, value: real): (r: map<string, real>)
    ensures r.Keys == values.Keys
    ensures name in values ==> r[name] == value
    ensures forall n :: n in values && n != name ==> r[n] == values[n]
    ensures name !in values ==> r == values
  {
    if name in values then values[name := value] else values
  }

  /** A sequence of writes applied in list order. */
  function WriteAll(values: map<string, real>, writes: seq<(string, real)>): (r: map<string, real>)
    ensures r.Keys == values.Keys
  {
    if writes == [] then values
    else
      var n := |writes| - 1;
      Write(WriteAll(values, writes[..n]), writes[n].0, writes[n].1)
  }

  /** The value of the last write to `name` in `writes`, if there is one. */
  function LastWrite(writes: seq<(string, real)>, name: string): Option<real>
  {
    if writes == [] then None
    else
      var n := |writes| - 1;
      if writes[n].0 == name then Some(writes[n].1) else LastWrite(writes[..n], name)
  }

  /** For each known name the last write wins. */
  lemma {:induction false} WriteAllLastWins(values: map<string, real>, writes: seq<(string, real)>, name: string)
    ensures name in values ==>
      WriteAll(values, writes)[name] == (match LastWrite(writes, name) case Some(v) => v case None => values[name])
  {
    if writes != [] {
      WriteAllLastWins(values, writes[..|writes| - 1], name);
    }
  }

  /** Applying two batches of writes one after the other is applying their concatenation. */
  lemma {:induction false} WriteAllAppend(values: map<string, real>, first: seq<(string, real)>, second: seq<(string, real)>)
    ensures WriteAll(WriteAll(values, first), second) == WriteAll(values, first + second)
  {
    if second == [] {
      assert first + second == first;
    } else {
      var n := |second| - 1;
      var all := first + second;
      assert all[..|all| - 1] == first + second[..n];
      assert all[|all| - 1] == second[n];
      WriteAllAppend(values, first, second[..n]);
    }
  }

  /** When no two writes share a name, the last write to the name of write `k` is write `k` itself. */
  lemma {:induction false} LastWriteOfDistinct(writes: seq<(string, real)>, k: nat)
    requires k < |writes|
    requires forall i, j :: 0 <= i < j < |writes| ==> writes[i].0 != writes[j].0
    ensures LastWrite(writes, writes[k].0) == Some(writes[k].1)
  {
    var n := |writes| - 1;
    if k < n {
      LastWriteOfDistinct(writes[..n], k);
    }
  }

  /** The enumeration `GetParameters` returns for a store in a given state. */
  function Definitions(names: seq<string>, values: map<string, real>, savable: set<string>): (defs: seq<ParameterDefinition>)
    ensures |defs| == |names|
    ensures forall i :: 0 <= i < |names| ==>
      defs[i].name == names[i] && defs[i].value == Read(values, names[i]) && defs[i].canSaveToProfile == (names[i] in savable)
  {
    seq(|names|, i requires 0 <= i < |names| => ParameterDefinition(names[i], Read(values, names[i]), names[i] in savable))
  }

  /** The store shared by the menu, the profile manager and the triggers of one avatar. */
  class ParameterAccess {
    /** The registered parameters, in enumeration order. */
    const names: seq<string>
    /** The parameters `CanSaveToProfile` admits: those no animation curve drives. */
    const savable: set<string>
    var values: map<string, real>

    constructor (names: seq<string>, initial: map<string, real>, savable: set<string>)
      requires initial.Keys == set n | n in names
      ensures this.names == names && this.savable == savable && values == initial
    {
      this.names := names;
      this.savable := savable;
      values := initial;
    }

    /** `SetParameter`: a no-op for an unknown name. */
    method SetParameter(name: string, value: real)
      modifies this`values
      ensures values == Write(old(values), name, value)
    {
      if name in values {
        values := values[name := value];
      }
    }

    /** `GetParameter`: reports whether the name is known, and yields its value or 0. */
    method GetParameter(name: string) returns (found: bool, value: real)
      ensures found <==> name in values
      ensures found ==> value == values[name]
      ensures !found ==> value == 0.0
    {
      found := name in values;
      value := if found then values[name] else 0.0;
    }

    /** `GetParameters`: every registered parameter with its value and its `CanSaveToProfile` flag. */
    function GetParameters(): seq<ParameterDefinition>
      reads this
    {
      Definitions(names, values, savable)
    }
  }
}
