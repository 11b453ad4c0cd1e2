/**
 * FirmwareVersionTracker: a list of database rows, one per firmware added,
 * and a dictionary model -> name -> list of (version, Firmware) kept sorted
 * by version. Python dictionaries keep their insertion order, which the
 * lookups in iteration order depend on, so both levels are association
 * lists here.
 */
module FirmwareDb {
  import opened Wrappers
  import opened Text

  /** A firmware file. Python compares Firmware objects by identity only. */
  class Firmware {
    const name: string
    const model: string
    const fwVersion: string
    const uuid: string
    const path: string
    const nbRegisters: int
    const description: string

    constructor(name: string, model: string, fwVersion: string, uuid: string, path: string,
                nbRegisters: int, description: string)
      ensures this.name == name && this.model == model && this.fwVersion == fwVersion
      ensures this.uuid == uuid && this.path == path && this.nbRegisters == nbRegisters
      ensures this.description == description
    {
      this.name := name;
      this.model := model;
      this.fwVersion := fwVersion;
      this.uuid := uuid;
      this.path := path;
      this.nbRegisters := nbRegisters;
      this.description := description;
    }
  }

  /** A row of the text database, in the order add_new_fw stores it. */
  datatype Row = Row(
    name: string, description: string, model: string, fwVersion: string, uuid: string, path: string,
    nbRegisters: int)

  function RowOf(fw: Firmware): Row
  {
    Row(fw.name, fw.description, fw.model, fw.fwVersion, fw.uuid, fw.path, fw.nbRegisters)
  }

  datatype Version = Version(version: string, firmware: Firmware)
  datatype NameEntry = NameEntry(name: string, versions: seq<Version>)
  datatype ModelEntry = ModelEntry(model: string, names: seq<NameEntry>)

  /** The two fields of a tracker. */
  datatype Tracker = Tracker(rows: seq<Row>, models: seq<ModelEntry>)

  datatype AddOutcome =
    | AlreadyInDatabase   // the warning and early return
    | Added
    | VersionTie          // TypeError from sorting two Firmware objects of one version

  datatype FwError =
    | UnknownModel(model: string)                                        // KeyError
    | UnknownName(name: string)                                          // KeyError
    | MissingVersion(name: string, version: string, available: seq<string>)  // ValueError

  // ---------------------------------------------------------------------
  // sorted(): a stable sort by a string key.

  predicate SortedBy<T>(s: seq<T>, key: T -> string)
  {
    forall i, j :: 0 <= i < j < |s| ==> StrLe(key(s[i]), key(s[j]))
  }

  /** Inserts `x` after the elements whose key is at most its own. */
  function InsertBy<T>(s: seq<T>, x: T, key: T -> string): (r: seq<T>)
    requires SortedBy(s, key)
    ensures SortedBy(r, key)
    ensures multiset(r) == multiset(s) + multiset{x}
    decreases |s|
  {
    if s == [] then [x]
    else
      var n := |s| - 1;
      var last := s[n];
      if StrLe(key(last), key(x)) then
        assert forall i :: 0 <= i < n ==> StrLe(key(s[i]), key(last));
        forall i | 0 <= i < n
          ensures StrLe(key(s[i]), key(x))
        {
          StrLeTransitive(key(s[i]), key(last), key(x));
        }
        s + [x]
      else
        assert s == s[..n] + [last];
        assert SortedBy(s[..n], key);
        var r := InsertBy(s[..n], x, key);
        StrLeTotal(key(last), key(x));
        forall y | y in multiset(r)
          ensures StrLe(key(y), key(last))
        {
          if y != x {
            assert y in multiset(s[..n]);
            var i :| 0 <= i < n && s[..n][i] == y;
            assert s[i] == y;
          }
        }
        InsertByBelow(r, last, key);
        r + [last]
  }

  lemma InsertByBelow<T>(r: seq<T>, last: T, key: T -> string)
    requires SortedBy(r, key)
    requires forall y :: y in multiset(r) ==> StrLe(key(y), key(last))
    ensures SortedBy(r + [last], key)
  {
    forall i | 0 <= i < |r|
      ensures StrLe(key(r[i]), key(last))
    {
      assert r[i] in multiset(r);
    }
  }

  /** `sorted(s, key=key)`: a sorted permutation of `s`. */
  function SortBy<T>(s: seq<T>, key: T -> string): (r: seq<T>)
    ensures SortedBy(r, key)
    ensures multiset(r) == multiset(s)
    decreases |s|
  {
    if s == [] then []
    else
      var n := |s| - 1;
      assert s == s[..n] + [s[n]];
      InsertBy(SortBy(s[..n], key), s[n], key)
  }

  /** Sorting a sorted list with one element appended is inserting that element. */
  lemma {:induction false} SortBySortedAppend<T>(s: seq<T>, x: T, key: T -> string)
    requires SortedBy(s, key)
    ensures SortBy(s + [x], key) == InsertBy(s, x, key)
  {
    assert (s + [x])[..|s|] == s;
    SortBySorted(s, key);
  }

  lemma {:induction false} SortBySorted<T>(s: seq<T>, key: T -> string)
    requires SortedBy(s, key)
    ensures SortBy(s, key) == s
    decreases |s|
  {
    if s != [] {
      var n := |s| - 1;
      assert SortedBy(s[..n], key);
      SortBySorted(s[..n], key);
      if n > 0 {
        assert StrLe(key(s[n - 1]), key(s[n]));
        assert s[..n][n - 1] == s[n - 1];
      }
      assert s[..n] + [s[n]] == s;
    }
  }

  // ---------------------------------------------------------------------
  // add_new_fw

  /**
   * The duplicate test of add_new_fw: it unpacks a stored row as (name,
   * model, version, uuid, path, registers, description), while rows are
   * stored as (name, description, model, version, uuid, path, registers).
   */
  predicate MatchesAsWritten(fw: Firmware, row: Row)
  {
    && fw.name == row.name && fw.model == row.description && fw.fwVersion == row.model
    && fw.uuid == row.fwVersion && fw.path == row.uuid
  }

  /** The duplicate test as intended: same name, model, version, uuid and path. */
  predicate MatchesIntended(fw: Firmware, row: Row)
  {
    && fw.name == row.name && fw.model == row.model && fw.fwVersion == row.fwVersion
    && fw.uuid == row.uuid && fw.path == row.path
  }

  predicate Matches(fw: Firmware, row: Row, aligned: bool)
  {
    if aligned then MatchesIntended(fw, row) else MatchesAsWritten(fw, row)
  }

  predicate InDatabase(rows: seq<Row>, fw: Firmware, aligned: bool)
  {
    exists i :: 0 <= i < |rows| && Matches(fw, rows[i], aligned)
  }

  function VersionKey(v: Version): string
  {
    v.version
  }

  /** Two different Firmware objects of one version: sorting the tuples compares them and raises. */
  predicate Tied(vs: seq<Version>)
  {
    exists i, j :: 0 <= i < j < |vs| && vs[i].version == vs[j].version && vs[i].firmware != vs[j].firmware
  }

  /** `model in self.model_dict`, as the index of the entry. */
  function FindModel(models: seq<ModelEntry>, m: string): (r: Option<nat>)
    ensures r.Some? ==> r.value < |models| && models[r.value].model == m
    ensures r.Some? ==> forall j :: 0 <= j < r.value ==> models[j].model != m
    ensures r.None? ==> forall j :: 0 <= j < |models| ==> models[j].model != m
    decreases |models|
  {
    if models == [] then None
    else if models[0].model == m then Some(0)
    else
      match FindModel(models[1..], m)
      case None => None
      case Some(k) => Some(k + 1)
  }

  /** `name in self.model_dict[model]`, as the index of the entry. */
  function FindName(names: seq<NameEntry>, n: string): (r: Option<nat>)
    ensures r.Some? ==> r.value < |names| && names[r.value].name == n
    ensures r.Some? ==> forall j :: 0 <= j < r.value ==> names[j].name != n
    ensures r.None? ==> forall j :: 0 <= j < |names| ==> names[j].name != n
    decreases |names|
  {
    if names == [] then None
    else if names[0].name == n then Some(0)
    else
      match FindName(names[1..], n)
      case None => None
      case Some(k) => Some(k + 1)
  }

  /**
   * The registration step: a new model or name gets a one-element list; a
   * further version is appended and the list sorted, and on a tie the
   * append has happened and the sort has not.
   */
  function Register(models: seq<ModelEntry>, fw: Firmware): (seq<ModelEntry>, bool)
  {
    var v := Version(fw.fwVersion, fw);
    match FindModel(models, fw.model)
    case None => (models + [ModelEntry(fw.model, [NameEntry(fw.name, [v])])], false)
    case Some(i) =>
      var names := models[i].names;
      match FindName(names, fw.name)
      case None => (models[i := ModelEntry(fw.model, names + [NameEntry(fw.name, [v])])], false)
      case Some(j) =>
        var appended := names[j].versions + [v];
        var tie := Tied(appended);
        var vs := if tie then appended else SortBy(appended, VersionKey);
        (models[i := ModelEntry(fw.model, names[j := NameEntry(fw.name, vs)])], tie)
  }

  /** add_new_fw on a tracker; `aligned` selects the intended duplicate test. */
  function AddSpec(t: Tracker, fw: Firmware, aligned: bool): (Tracker, AddOutcome)
  {
    if InDatabase(t.rows, fw, aligned) then (t, AlreadyInDatabase)
    else
      var reg := Register(t.models, fw);
      (Tracker(t.rows + [RowOf(fw)], reg.0), if reg.1 then VersionTie else Added)
  }

  // ---------------------------------------------------------------------
  // get_fw and search_uuid

  /** `self.model_dict[model][name]`. */
  function Lookup(models: seq<ModelEntry>, model: string, name: string): Result<seq<Version>, FwError>
  {
    match FindModel(models, model)
    case None => Failure(UnknownModel(model))
    case Some(i) =>
      match FindName(models[i].names, name)
      case None => Failure(UnknownName(name))
      case Some(j) => Success(models[i].names[j].versions)
  }

  function VersionsOf(vs: seq<Version>): (r: seq<string>)
    ensures |r| == |vs| && forall k :: 0 <= k < |vs| ==> r[k] == vs[k].version
  {
    if vs == [] then [] else [vs[0].version] + VersionsOf(vs[1..])
  }

  /** The index of the first entry of that version. */
  function FirstWithVersion(vs: seq<Version>, version: string): (r: Option<nat>)
    ensures r.Some? ==> r.value < |vs| && vs[r.value].version == version
    ensures r.Some? ==> forall k :: 0 <= k < r.value ==> vs[k].version != version
    ensures r.None? ==> forall k :: 0 <= k < |vs| ==> vs[k].version != version
    decreases |vs|
  {
    if vs == [] then None
    else if vs[0].version == version then Some(0)
    else
      match FirstWithVersion(vs[1..], version)
      case None => None
      case Some(k) => Some(k + 1)
  }

  function GetFwSpec(models: seq<ModelEntry>, name: string, model: string, version: string)
    : Result<Firmware, FwError>
  {
    match Lookup(models, model, name)
    case Failure(e) => Failure(e)
    case Success(vs) =>
      match FirstWithVersion(vs, version)
      case None => Failure(MissingVersion(name, version, VersionsOf(vs)))
      case Some(k) => Success(vs[k].firmware)
  }

  /** Every Firmware of the dictionary, in iteration order. */
  function FlattenModels(models: seq<ModelEntry>): seq<Firmware>
  {
    if models == [] then [] else FlattenNames(models[0].names) + FlattenModels(models[1..])
  }

  function FlattenNames(names: seq<NameEntry>): seq<Firmware>
  {
    if names == [] then [] else FlattenVersions(names[0].versions) + FlattenNames(names[1..])
  }

  function FlattenVersions(vs: seq<Version>): (r: seq<Firmware>)
    ensures |r| == |vs| && forall k :: 0 <= k < |vs| ==> r[k] == vs[k].firmware
  {
    if vs == [] then [] else [vs[0].firmware] + FlattenVersions(vs[1..])
  }

  /** The first Firmware of the list with that uuid. */
  function FirstWithUuid(fws: seq<Firmware>, uuid: string): (r: Option<Firmware>)
    ensures r.Some? ==> r.value in fws && r.value.uuid == uuid
    ensures r.None? <==> forall k :: 0 <= k < |fws| ==> fws[k].uuid != uuid
  {
    if fws == [] then None
    else if fws[0].uuid == uuid then Some(fws[0])
    else
      assert forall k :: 0 < k < |fws| ==> fws[k] == fws[1..][k - 1];
      FirstWithUuid(fws[1..], uuid)
  }

  lemma {:induction false} FirstWithUuidAppend(a: seq<Firmware>, b: seq<Firmware>, uuid: string)
    ensures FirstWithUuid(a + b, uuid) == if FirstWithUuid(a, uuid).Some? then FirstWithUuid(a, uuid) else FirstWithUuid(b, uuid)
    decreases |a|
  {
    if a != [] {
      assert (a + b)[1..] == a[1..] + b;
      FirstWithUuidAppend(a[1..], b, uuid);
    } else {
      assert a + b == b;
    }
  }

  // ---------------------------------------------------------------------
  // The tracker.

  class FirmwareVersionTracker {
    var fwDatabase: seq<Row>
    var modelDict: seq<ModelEntry>

    constructor()
      ensures fwDatabase == [] && modelDict == []
    {
      fwDatabase := [];
      modelDict := [];
    }

    function State(): Tracker
      reads this
    {
      Tracker(fwDatabase, modelDict)
    }

    /**
     * add_new_fw: skip a firmware the duplicate test finds, otherwise store
     * its row and register its version. A VersionTie outcome is the
     * TypeError, raised once both have happened.
     */
    method AddNewFw(fw: Firmware) returns (outcome: AddOutcome)
      modifies this
      ensures (State(), outcome) == AddSpec(old(State()), fw, false)
    {
      var found := FindInDatabase(fwDatabase, fw);
      if found {
        return AlreadyInDatabase;
      }
      fwDatabase := fwDatabase + [RowOf(fw)];
      var tie;
      modelDict, tie := RegisterFw(modelDict, fw);
      outcome := if tie then VersionTie else Added;
    }

    /** get_fw: the first firmware of the requested version, or the error naming the versions there are. */
    method GetFw(name: string, model: string, version: string) returns (r: Result<Firmware, FwError>)
      ensures r == GetFwSpec(modelDict, name, model, version)
    {
      var list := Lookup(modelDict, model, name);
      if list.Failure? {
        return Failure(list.error);
      }
      var fwList := list.value;
      for k := 0 to |fwList|
        invariant forall q :: 0 <= q < k ==> fwList[q].version != version
      {
        if fwList[k].version == version {
          FirstWithVersionAt(fwList, version, k);
          return Success(fwList[k].firmware);
        }
      }
      r := Failure(MissingVersion(name, version, VersionsOf(fwList)));
    }

    /**
     * `__str__`: the output list built model by model, sorted by its
     * upper-cased text, its last line stripped of newlines, and joined.
     */
    method ToString() returns (r: Option<string>)
      ensures r == TrackerString(modelDict)
    {
      var output: seq<string> := [];
      for i := 0 to |modelDict|
        invariant output == Entries(modelDict[..i])
      {
        assert modelDict[..i + 1][..i] == modelDict[..i];
        var lines := CollectNameLines(modelDict[i].model, modelDict[i].names);
        output := output + lines;
      }
      assert modelDict[..|modelDict|] == modelDict;
      output := SortBy(output, Upper);
      if output == [] {
        return None;
      }
      var n := |output|;
      output := output[n - 1 := RStripNewlines(output[n - 1])];
      assert output[..n - 1] == SortBy(Entries(modelDict), Upper)[..n - 1];
      r := Some(Concat(output[..n - 1]) + output[n - 1]);
    }

    /** search_uuid: the first firmware with that uuid, in dictionary order. */
    method SearchUuid(uuid: string) returns (r: Option<Firmware>)
      ensures r == FirstWithUuid(FlattenModels(modelDict), uuid)
    {
      r := SearchModels(modelDict, uuid);
    }
  }

  /**
   * The registration steps of add_new_fw on the dictionary: on a tie the
   * appended list is what is left when sorting raises.
   */
  method RegisterFw(models: seq<ModelEntry>, fw: Firmware) returns (ms: seq<ModelEntry>, tie: bool)
    ensures (ms, tie) == Register(models, fw)
  {
    ms := models;
    tie := false;
    var v := Version(fw.fwVersion, fw);
    var i := FindModel(ms, fw.model);
    if i.None? {
      ms := ms + [ModelEntry(fw.model, [NameEntry(fw.name, [v])])];
      return;
    }
    var names := ms[i.value].names;
    var j := FindName(names, fw.name);
    if j.None? {
      ms := ms[i.value := ModelEntry(fw.model, names + [NameEntry(fw.name, [v])])];
      return;
    }
    var versionList := names[j.value].versions + [v];
    ms := ms[i.value := ModelEntry(fw.model, names[j.value := NameEntry(fw.name, versionList)])];
    if Tied(versionList) {
      tie := true;
      return;
    }
    var sorted := ModelEntry(fw.model, names[j.value := NameEntry(fw.name, SortBy(versionList, VersionKey))]);
    assert ms[i.value := sorted] == models[i.value := sorted];
    ms := ms[i.value := sorted];
  }

  /** The duplicate loop of add_new_fw, with its early return. */
  method FindInDatabase(rows: seq<Row>, fw: Firmware) returns (found: bool)
    ensures found == InDatabase(rows, fw, false)
  {
    for k := 0 to |rows|
      invariant forall q :: 0 <= q < k ==> !MatchesAsWritten(fw, rows[q])
    {
      if fw.name == rows[k].name && fw.model == rows[k].description && fw.fwVersion == rows[k].model
         && fw.uuid == rows[k].fwVersion && fw.path == rows[k].uuid
      {
        assert Matches(fw, rows[k], false);
        return true;
      }
    }
    found := false;
  }

  lemma FirstWithVersionAt(vs: seq<Version>, version: string, k: nat)
    requires k < |vs| && vs[k].version == version
    requires forall q :: 0 <= q < k ==> vs[q].version != version
    ensures FirstWithVersion(vs, version) == Some(k)
  {
  }

  method SearchModels(models: seq<ModelEntry>, uuid: string) returns (r: Option<Firmware>)
    ensures r == FirstWithUuid(FlattenModels(models), uuid)
  {
    for k := 0 to |models|
      invariant FirstWithUuid(FlattenModels(models), uuid) == FirstWithUuid(FlattenModels(models[k..]), uuid)
    {
      assert models[k..][1..] == models[k + 1..];
      FirstWithUuidAppend(FlattenNames(models[k].names), FlattenModels(models[k + 1..]), uuid);
      var found := SearchNames(models[k].names, uuid);
      if found.Some? {
        return found;
      }
    }
    r := None;
  }

  method SearchNames(names: seq<NameEntry>, uuid: string) returns (r: Option<Firmware>)
    ensures r == FirstWithUuid(FlattenNames(names), uuid)
  {
    for k := 0 to |names|
      invariant FirstWithUuid(FlattenNames(names), uuid) == FirstWithUuid(FlattenNames(names[k..]), uuid)
    {
      assert names[k..][1..] == names[k + 1..];
      FirstWithUuidAppend(FlattenVersions(names[k].versions), FlattenNames(names[k + 1..]), uuid);
      var found := SearchVersions(names[k].versions, uuid);
      if found.Some? {
        return found;
      }
    }
    r := None;
  }

  method SearchVersions(vs: seq<Version>, uuid: string) returns (r: Option<Firmware>)
    ensures r == FirstWithUuid(FlattenVersions(vs), uuid)
  {
    for k := 0 to |vs|
      invariant FirstWithUuid(FlattenVersions(vs), uuid) == FirstWithUuid(FlattenVersions(vs[k..]), uuid)
    {
      assert vs[k..][1..] == vs[k + 1..];
      if vs[k].firmware.uuid == uuid {
        return Some(vs[k].firmware);
      }
    }
    r := None;
  }

  // ---------------------------------------------------------------------
  // The dictionary invariant.

  /** A version list: non-empty, of its model and name, keyed by each firmware's version, sorted unless tied. */
  predicate ValidVersions(model: string, name: string, vs: seq<Version>)
  {
    && |vs| > 0
    && (forall k :: 0 <= k < |vs| ==>
          vs[k].firmware.model == model && vs[k].firmware.name == name && vs[k].version == vs[k].firmware.fwVersion)
    && (Tied(vs) || SortedBy(vs, VersionKey))
  }

  predicate ValidModel(me: ModelEntry)
  {
    && (forall a, b :: 0 <= a < b < |me.names| ==> me.names[a].name != me.names[b].name)
    && (forall a :: 0 <= a < |me.names| ==> ValidVersions(me.model, me.names[a].name, me.names[a].versions))
  }

  /** Distinct models, distinct names per model, and every version list valid. */
  predicate Valid(models: seq<ModelEntry>)
  {
    && (forall a, b :: 0 <= a < b < |models| ==> models[a].model != models[b].model)
    && (forall a :: 0 <= a < |models| ==> ValidModel(models[a]))
  }

  /** Sorting a list without a tie leaves no tie. */
  lemma SortKeepsUntied(vs: seq<Version>)
    requires !Tied(vs)
    ensures !Tied(SortBy(vs, VersionKey))
  {
    var r := SortBy(vs, VersionKey);
    forall i, j | 0 <= i < j < |r| && r[i].version == r[j].version
      ensures r[i].firmware == r[j].firmware
    {
      assert r[i] in multiset(vs) && r[j] in multiset(vs);
      var p :| 0 <= p < |vs| && vs[p] == r[i];
      var q :| 0 <= q < |vs| && vs[q] == r[j];
      if p < q {
        assert vs[p].version == vs[q].version;
      } else if q < p {
        assert vs[q].version == vs[p].version;
      }
    }
  }

  lemma SortKeepsEntries(vs: seq<Version>, model: string, name: string)
    requires forall k :: 0 <= k < |vs| ==>
      vs[k].firmware.model == model && vs[k].firmware.name == name && vs[k].version == vs[k].firmware.fwVersion
    ensures var r := SortBy(vs, VersionKey);
      forall k :: 0 <= k < |r| ==>
        r[k].firmware.model == model && r[k].firmware.name == name && r[k].version == r[k].firmware.fwVersion
  {
    var r := SortBy(vs, VersionKey);
    forall k | 0 <= k < |r|
      ensures r[k].firmware.model == model && r[k].firmware.name == name && r[k].version == r[k].firmware.fwVersion
    {
      assert r[k] in multiset(vs);
      var p :| 0 <= p < |vs| && vs[p] == r[k];
    }
  }

  /** The version list add_new_fw leaves under an existing model and name is valid. */
  lemma AppendedValid(vs: seq<Version>, fw: Firmware)
    requires ValidVersions(fw.model, fw.name, vs)
    ensures var appended := vs + [Version(fw.fwVersion, fw)];
      ValidVersions(fw.model, fw.name, if Tied(appended) then appended else SortBy(appended, VersionKey))
  {
    var appended := vs + [Version(fw.fwVersion, fw)];
    if !Tied(appended) {
      SortKeepsUntied(appended);
      SortKeepsEntries(appended, fw.model, fw.name);
      assert appended[|vs|] in multiset(SortBy(appended, VersionKey));
    }
  }

  /** add_new_fw keeps the dictionary valid. */
  lemma AddPreservesValid(t: Tracker, fw: Firmware, aligned: bool)
    requires Valid(t.models)
    ensures Valid(AddSpec(t, fw, aligned).0.models)
  {
    if !InDatabase(t.rows, fw, aligned) {
      var models := t.models;
      var v := Version(fw.fwVersion, fw);
      match FindModel(models, fw.model)
      case None =>
        ValidAppendModel(models, ModelEntry(fw.model, [NameEntry(fw.name, [v])]));
      case Some(i) =>
        var names := models[i].names;
        assert ValidModel(models[i]);
        match FindName(names, fw.name)
        case None =>
          ValidAppendName(models[i], NameEntry(fw.name, [v]));
          ValidUpdateModel(models, i, ModelEntry(fw.model, names + [NameEntry(fw.name, [v])]));
        case Some(j) =>
          AppendedValid(names[j].versions, fw);
          var appended := names[j].versions + [v];
          var vs := if Tied(appended) then appended else SortBy(appended, VersionKey);
          ValidUpdateName(models[i], j, NameEntry(fw.name, vs));
          ValidUpdateModel(models, i, ModelEntry(fw.model, names[j := NameEntry(fw.name, vs)]));
    }
  }

  /** A new model at the end keeps the dictionary valid. */
  lemma ValidAppendModel(models: seq<ModelEntry>, me: ModelEntry)
    requires Valid(models) && ValidModel(me)
    requires forall a :: 0 <= a < |models| ==> models[a].model != me.model
    ensures Valid(models + [me])
  {
    var ms := models + [me];
    assert forall a :: 0 <= a < |models| ==> ms[a] == models[a];
  }

  /** A valid entry in place of a model's entry keeps the dictionary valid. */
  lemma ValidUpdateModel(models: seq<ModelEntry>, i: nat, me: ModelEntry)
    requires Valid(models) && i < |models| && ValidModel(me) && me.model == models[i].model
    ensures Valid(models[i := me])
  {
    var ms := models[i := me];
    assert forall a :: 0 <= a < |models| ==> ms[a].model == models[a].model;
  }

  /** A new name at the end keeps a model's entry valid. */
  lemma ValidAppendName(me: ModelEntry, ne: NameEntry)
    requires ValidModel(me) && ValidVersions(me.model, ne.name, ne.versions)
    requires forall a :: 0 <= a < |me.names| ==> me.names[a].name != ne.name
    ensures ValidModel(ModelEntry(me.model, me.names + [ne]))
  {
    var ns := me.names + [ne];
    assert forall a :: 0 <= a < |me.names| ==> ns[a] == me.names[a];
  }

  /** A valid version list in place of a name's list keeps a model's entry valid. */
  lemma ValidUpdateName(me: ModelEntry, j: nat, ne: NameEntry)
    requires ValidModel(me) && j < |me.names| && ne.name == me.names[j].name
    requires ValidVersions(me.model, ne.name, ne.versions)
    ensures ValidModel(ModelEntry(me.model, me.names[j := ne]))
  {
    var ns := me.names[j := ne];
    assert forall a :: 0 <= a < |me.names| ==> ns[a].name == me.names[a].name;
  }

  // ---------------------------------------------------------------------
  // What add_new_fw registers.

  /** After a firmware is added, get_fw finds it under its own name, model and version. */
  lemma AddThenGet(t: Tracker, fw: Firmware, aligned: bool)
    requires AddSpec(t, fw, aligned).1 == Added
    ensures GetFwSpec(AddSpec(t, fw, aligned).0.models, fw.name, fw.model, fw.fwVersion) == Success(fw)
  {
    var models := t.models;
    var v := Version(fw.fwVersion, fw);
    var ms := AddSpec(t, fw, aligned).0.models;
    match FindModel(models, fw.model)
    case None =>
      assert ms == models + [ModelEntry(fw.model, [NameEntry(fw.name, [v])])];
      FindModelIs(ms, fw.model, |models|);
      assert FindName(ms[|models|].names, fw.name) == Some(0);
    case Some(i) =>
      var names := models[i].names;
      match FindName(names, fw.name)
      case None =>
        var ns := names + [NameEntry(fw.name, [v])];
        FindModelIs(ms, fw.model, i);
        FindNameIs(ns, fw.name, |names|);
        assert FirstWithVersion([v], fw.fwVersion) == Some(0);
      case Some(j) =>
        var appended := names[j].versions + [v];
        assert !Tied(appended);
        var vs := SortBy(appended, VersionKey);
        var ns := names[j := NameEntry(fw.name, vs)];
        FindModelIs(ms, fw.model, i);
        FindNameIs(ns, fw.name, j);
        assert v in multiset(vs) by {
          assert appended[|appended| - 1] == v;
        }
        var w :| 0 <= w < |vs| && vs[w] == v;
        var k := FirstWithVersion(vs, fw.fwVersion).value;
        UntiedSameVersion(appended, vs, k, |appended| - 1);
  }

  lemma UntiedSameVersion(appended: seq<Version>, vs: seq<Version>, k: nat, last: nat)
    requires !Tied(appended) && multiset(vs) == multiset(appended)
    requires k < |vs| && last < |appended|
    requires vs[k].version == appended[last].version
    ensures vs[k].firmware == appended[last].firmware
  {
    assert vs[k] in multiset(appended);
    var p :| 0 <= p < |appended| && appended[p] == vs[k];
    if p < last {
      assert appended[p].version == appended[last].version;
    } else if last < p {
      assert appended[last].version == appended[p].version;
    }
  }

  /**
   * add_new_fw leaves the versions of every other (model, name) pair as they
   * were: found with the same list, or still missing (a name missing under a
   * model the add just created is then reported as an unknown name).
   */
  lemma AddKeepsOthers(t: Tracker, fw: Firmware, aligned: bool, model: string, name: string)
    requires model != fw.model || name != fw.name
    ensures Lookup(AddSpec(t, fw, aligned).0.models, model, name).Success?
        == Lookup(t.models, model, name).Success?
    ensures Lookup(t.models, model, name).Success? ==>
        Lookup(AddSpec(t, fw, aligned).0.models, model, name) == Lookup(t.models, model, name)
  {
    if !InDatabase(t.rows, fw, aligned) {
      var models := t.models;
      var v := Version(fw.fwVersion, fw);
      match FindModel(models, fw.model)
      case None =>
        LookupAfterNewModel(models, ModelEntry(fw.model, [NameEntry(fw.name, [v])]), model, name);
      case Some(i) =>
        var names := models[i].names;
        var ne := NameEntry(fw.name, [v]);
        match FindName(names, fw.name)
        case None =>
          LookupAfterModelUpdate(models, i, ModelEntry(fw.model, names + [ne]), model, name);
          if model == fw.model {
            FindNameAfterAppend(names, ne, name);
          }
        case Some(j) =>
          var appended := names[j].versions + [v];
          var vs := if Tied(appended) then appended else SortBy(appended, VersionKey);
          LookupAfterModelUpdate(models, i, ModelEntry(fw.model, names[j := NameEntry(fw.name, vs)]), model, name);
          if model == fw.model {
            FindNameAfterUpdate(names, j, NameEntry(fw.name, vs), name);
          }
    }
  }

  /** A new model at the end: the other models look up as before, and its only name is the new one. */
  lemma LookupAfterNewModel(models: seq<ModelEntry>, me: ModelEntry, model: string, name: string)
    requires FindModel(models, me.model).None?
    requires model != me.model || (|me.names| == 1 && name != me.names[0].name)
    ensures Lookup(models + [me], model, name).Success? == Lookup(models, model, name).Success?
    ensures Lookup(models, model, name).Success? ==> Lookup(models + [me], model, name) == Lookup(models, model, name)
  {
    var ms := models + [me];
    if model != me.model {
      match FindModel(models, model)
      case None =>
        assert FindModel(ms, model) == None;
      case Some(a) =>
        FindModelIs(ms, model, a);
        assert ms[a] == models[a];
    } else {
      FindModelIs(ms, model, |models|);
      assert FindName(ms[|models|].names, name) == None;
    }
  }

  /**
   * An entry with the same model in place of model `i`: every other model
   * looks up as before, and model `i`'s names are looked up in the new entry.
   */
  lemma LookupAfterModelUpdate(models: seq<ModelEntry>, i: nat, me: ModelEntry, model: string, name: string)
    requires i < |models| && me.model == models[i].model
    requires FindModel(models, me.model) == Some(i)
    ensures model != me.model ==> Lookup(models[i := me], model, name) == Lookup(models, model, name)
    ensures model == me.model ==>
      Lookup(models[i := me], model, name) ==
        (match FindName(me.names, name)
         case None => Failure(UnknownName(name))
         case Some(j) => Success(me.names[j].versions))
    ensures model == me.model ==>
      Lookup(models, model, name) ==
        (match FindName(models[i].names, name)
         case None => Failure(UnknownName(name))
         case Some(j) => Success(models[i].names[j].versions))
  {
    var ms := models[i := me];
    assert forall a :: 0 <= a < |models| ==> ms[a].model == models[a].model;
    SameKeysFindModel(models, ms, model);
  }

  /** Appending a name leaves where every other name is found. */
  lemma FindNameAfterAppend(names: seq<NameEntry>, ne: NameEntry, name: string)
    requires name != ne.name
    ensures FindName(names + [ne], name) == FindName(names, name)
    ensures FindName(names, name).Some? ==> (names + [ne])[FindName(names, name).value] == names[FindName(names, name).value]
  {
    match FindName(names, name)
    case None =>
    case Some(b) =>
      FindNameIs(names + [ne], name, b);
  }

  /** Replacing the entry of one name leaves where every other name is found, and its entry. */
  lemma FindNameAfterUpdate(names: seq<NameEntry>, j: nat, ne: NameEntry, name: string)
    requires j < |names| && ne.name == names[j].name && name != ne.name
    ensures FindName(names[j := ne], name) == FindName(names, name)
    ensures FindName(names, name).Some? ==> names[j := ne][FindName(names, name).value] == names[FindName(names, name).value]
  {
    var ns := names[j := ne];
    assert forall b :: 0 <= b < |names| ==> ns[b].name == names[b].name;
    SameKeysFindName(names, ns, name);
  }

  /** The first entry of a model is where FindModel finds it. */
  lemma FindModelIs(models: seq<ModelEntry>, m: string, k: nat)
    requires k < |models| && models[k].model == m
    requires forall j :: 0 <= j < k ==> models[j].model != m
    ensures FindModel(models, m) == Some(k)
  {
    var r := FindModel(models, m);
    if r.Some? && r.value > k {
    }
  }

  lemma FindNameIs(names: seq<NameEntry>, n: string, k: nat)
    requires k < |names| && names[k].name == n
    requires forall j :: 0 <= j < k ==> names[j].name != n
    ensures FindName(names, n) == Some(k)
  {
    var r := FindName(names, n);
    if r.Some? && r.value > k {
    }
  }

  lemma SameKeysFindModel(models: seq<ModelEntry>, ms: seq<ModelEntry>, m: string)
    requires |ms| == |models| && forall a :: 0 <= a < |models| ==> ms[a].model == models[a].model
    ensures FindModel(ms, m) == FindModel(models, m)
  {
    if FindModel(models, m).Some? {
      assert FindModel(ms, m).Some?;
    }
  }

  lemma SameKeysFindName(names: seq<NameEntry>, ns: seq<NameEntry>, n: string)
    requires |ns| == |names| && forall a :: 0 <= a < |names| ==> ns[a].name == names[a].name
    ensures FindName(ns, n) == FindName(names, n)
  {
    if FindName(names, n).Some? {
      assert FindName(ns, n).Some?;
    }
  }

  /** Once a version list is tied, every further version added to it raises again. */
  lemma TieIsPermanent(t: Tracker, fw: Firmware, aligned: bool)
    requires Lookup(t.models, fw.model, fw.name).Success?
    requires Tied(Lookup(t.models, fw.model, fw.name).value)
    requires !InDatabase(t.rows, fw, aligned)
    ensures AddSpec(t, fw, aligned).1 == VersionTie
  {
    var vs := Lookup(t.models, fw.model, fw.name).value;
    var appended := vs + [Version(fw.fwVersion, fw)];
    var i, j :| 0 <= i < j < |vs| && vs[i].version == vs[j].version && vs[i].firmware != vs[j].firmware;
    assert appended[i] == vs[i] && appended[j] == vs[j];
  }

  // ---------------------------------------------------------------------
  // The duplicate test as written and as intended.

  /**
   * Adding a second Firmware object with the same fields, as loading the
   * database file twice does: the test as written compares the model with
   * the stored description, so it lets the firmware through whenever the two
   * differ; the row is stored a second time and sorting the two objects of
   * one version raises.
   */
  lemma AsWrittenReaddRaises(t: Tracker, fw1: Firmware, fw2: Firmware)
    requires fw1 != fw2 && SameFields(fw1, fw2)
    requires fw1.model != fw1.description
    requires AddSpec(t, fw1, false).1 == Added
    requires !InDatabase(t.rows, fw2, false)
    ensures var t1 := AddSpec(t, fw1, false).0;
      && AddSpec(t1, fw2, false).1 == VersionTie
      && AddSpec(t1, fw2, false).0.rows == t.rows + [RowOf(fw1), RowOf(fw2)]
  {
    var t1 := AddSpec(t, fw1, false).0;
    assert t1.rows == t.rows + [RowOf(fw1)];
    assert !MatchesAsWritten(fw2, RowOf(fw1));
    forall k | 0 <= k < |t1.rows|
      ensures !Matches(fw2, t1.rows[k], false)
    {
      if k < |t.rows| {
        assert t1.rows[k] == t.rows[k];
      }
    }
    AddThenGet(t, fw1, false);
    var vs := Lookup(t1.models, fw1.model, fw1.name).value;
    var k := FirstWithVersion(vs, fw1.fwVersion).value;
    var appended := vs + [Version(fw2.fwVersion, fw2)];
    assert appended[k] == vs[k] && appended[|vs|].firmware == fw2;
    assert Tied(appended);
    assert t.rows + [RowOf(fw1)] + [RowOf(fw2)] == t.rows + [RowOf(fw1), RowOf(fw2)];
  }

  predicate SameFields(a: Firmware, b: Firmware)
  {
    && a.name == b.name && a.model == b.model && a.fwVersion == b.fwVersion && a.uuid == b.uuid
    && a.path == b.path && a.nbRegisters == b.nbRegisters && a.description == b.description
  }

  /** The intended test skips the second object and leaves the tracker as the first add left it. */
  lemma IntendedReaddSkipped(t: Tracker, fw1: Firmware, fw2: Firmware)
    requires SameFields(fw1, fw2)
    ensures var t1 := AddSpec(t, fw1, true).0;
      AddSpec(t1, fw2, true) == (t1, AlreadyInDatabase)
  {
    var t1 := AddSpec(t, fw1, true).0;
    if InDatabase(t.rows, fw1, true) {
      var k :| 0 <= k < |t.rows| && Matches(fw1, t.rows[k], true);
      assert Matches(fw2, t1.rows[k], true);
    } else {
      var k := |t.rows|;
      assert t1.rows[k] == RowOf(fw1);
      assert Matches(fw2, t1.rows[k], true);
    }
  }

  // ---------------------------------------------------------------------
  // get_fw

  /** In a valid tracker get_fw returns a firmware of the name, model and version asked for. */
  lemma GetFwFound(models: seq<ModelEntry>, name: string, model: string, version: string)
    requires Valid(models)
    requires GetFwSpec(models, name, model, version).Success?
    ensures var fw := GetFwSpec(models, name, model, version).value;
      fw.name == name && fw.model == model && fw.fwVersion == version
  {
    var i := FindModel(models, model).value;
    assert ValidModel(models[i]);
    var j := FindName(models[i].names, name).value;
    assert ValidVersions(model, name, models[i].names[j].versions);
  }

  /** get_fw fails with the version list exactly when no entry has the version asked for. */
  lemma GetFwMissing(models: seq<ModelEntry>, name: string, model: string, version: string)
    requires Lookup(models, model, name).Success?
    ensures var vs := Lookup(models, model, name).value;
      && (GetFwSpec(models, name, model, version).Failure? <==> version !in VersionsOf(vs))
      && (GetFwSpec(models, name, model, version).Failure? ==>
            GetFwSpec(models, name, model, version).error == MissingVersion(name, version, VersionsOf(vs)))
  {
    var vs := Lookup(models, model, name).value;
    if version in VersionsOf(vs) {
      var k :| 0 <= k < |vs| && VersionsOf(vs)[k] == version;
    }
  }

  // ---------------------------------------------------------------------
  // search_uuid

  /** search_uuid finds a firmware of the tracker with that uuid exactly when there is one. */
  lemma SearchUuidFinds(models: seq<ModelEntry>, uuid: string)
    ensures var r := FirstWithUuid(FlattenModels(models), uuid);
      && (r.Some? ==> r.value.uuid == uuid && r.value in FlattenModels(models))
      && (r.None? <==> forall fw :: fw in FlattenModels(models) ==> fw.uuid != uuid)
  {
  }

  // ---------------------------------------------------------------------
  // __str__

  /** Python's repr of a version string (one without quotes or backslashes). */
  function Quoted(v: string): string
  {
    "'" + v + "'"
  }

  /** The items of a list repr, separated by ", ". */
  function QuotedItems(vs: seq<string>): string
  {
    if vs == [] then ""
    else if |vs| == 1 then Quoted(vs[0])
    else Quoted(vs[0]) + ", " + QuotedItems(vs[1..])
  }

  /** Python's repr of a list of version strings. */
  function ListRepr(vs: seq<string>): (r: string)
    ensures |r| >= 2 && r[0] == '[' && r[|r| - 1] == ']'
  {
    "[" + QuotedItems(vs) + "]"
  }

  /** The line `__str__` writes for one name of one model. */
  function EntryLine(model: string, n: NameEntry): (r: string)
    ensures |r| >= 2 && r[|r| - 2] == ']' && r[|r| - 1] == '\n'
  {
    n.name + " (" + model + "): " + ListRepr(VersionsOf(n.versions)) + "\n"
  }

  /** The lines of one model's names, in dictionary order. */
  function NameLines(model: string, names: seq<NameEntry>): (r: seq<string>)
    ensures |r| == |names|
    ensures forall j :: 0 <= j < |names| ==> r[j] == EntryLine(model, names[j])
  {
    if names == [] then []
    else NameLines(model, names[..|names| - 1]) + [EntryLine(model, names[|names| - 1])]
  }

  /** The unsorted output list: every model's lines, in dictionary order. */
  function Entries(models: seq<ModelEntry>): seq<string>
  {
    if models == [] then []
    else
      var last := models[|models| - 1];
      Entries(models[..|models| - 1]) + NameLines(last.model, last.names)
  }

  /** How many (model, name) pairs the dictionary holds. */
  function PairCount(models: seq<ModelEntry>): nat
  {
    if models == [] then 0 else PairCount(models[..|models| - 1]) + |models[|models| - 1].names|
  }

  /** `s.rstrip("\n")`. */
  function RStripNewlines(s: string): (r: string)
    ensures r <= s
    ensures r == "" || r[|r| - 1] != '\n'
    ensures forall k :: |r| <= k < |s| ==> s[k] == '\n'
  {
    if s != [] && s[|s| - 1] == '\n' then RStripNewlines(s[..|s| - 1]) else s
  }

  /**
   * `str(tracker)`: the entries sorted by their upper-cased text, joined,
   * with the trailing newlines of the last one stripped. An empty tracker
   * has no last entry, and Python's `output[-1]` raises IndexError: None here.
   */
  function TrackerString(models: seq<ModelEntry>): Option<string>
  {
    var out := SortBy(Entries(models), Upper);
    if out == [] then None
    else Some(Concat(out[..|out| - 1]) + RStripNewlines(out[|out| - 1]))
  }

  /** One output line per (model, name) pair. */
  lemma {:induction false} EntriesCount(models: seq<ModelEntry>)
    ensures |Entries(models)| == PairCount(models)
    decreases |models|
  {
    if models != [] {
      EntriesCount(models[..|models| - 1]);
    }
  }

  /** Every pair's line is in the output list. */
  lemma {:induction false} EntriesComplete(models: seq<ModelEntry>, i: nat, j: nat)
    requires i < |models| && j < |models[i].names|
    ensures EntryLine(models[i].model, models[i].names[j]) in Entries(models)
    decreases |models|
  {
    var init := models[..|models| - 1];
    var last := models[|models| - 1];
    var lines := NameLines(last.model, last.names);
    assert Entries(models) == Entries(init) + lines;
    if i < |init| {
      assert models[i] == init[i];
      EntriesComplete(init, i, j);
    } else {
      assert lines[j] == EntryLine(models[i].model, models[i].names[j]);
    }
  }

  /** Every line of the output list is the line of a pair. */
  lemma {:induction false} EntriesSound(models: seq<ModelEntry>, e: string) returns (i: nat, j: nat)
    requires e in Entries(models)
    ensures i < |models| && j < |models[i].names| && e == EntryLine(models[i].model, models[i].names[j])
    decreases |models|
  {
    var init := models[..|models| - 1];
    var last := models[|models| - 1];
    var lines := NameLines(last.model, last.names);
    assert Entries(models) == Entries(init) + lines;
    if e in Entries(init) {
      i, j := EntriesSound(init, e);
      assert models[i] == init[i];
    } else {
      var k :| 0 <= k < |lines| && lines[k] == e;
      i, j := |models| - 1, k;
    }
  }

  /** Stripping an entry's newline and putting one back gives the entry. */
  lemma StripEntry(e: string)
    requires |e| >= 2 && e[|e| - 2] == ']' && e[|e| - 1] == '\n'
    ensures RStripNewlines(e) + "\n" == e
  {
    assert RStripNewlines(e) == RStripNewlines(e[..|e| - 1]) == e[..|e| - 1];
  }

  lemma {:induction false} ConcatSnoc(ls: seq<string>, x: string)
    ensures Concat(ls + [x]) == Concat(ls) + x
    decreases |ls|
  {
    if ls == [] {
      assert [] + [x] == [x];
    } else {
      assert (ls + [x])[1..] == ls[1..] + [x];
      ConcatSnoc(ls[1..], x);
    }
  }

  /** `str(tracker)` fails exactly when the tracker holds no (model, name) pair. */
  lemma TrackerStringEmpty(models: seq<ModelEntry>)
    ensures TrackerString(models).None? <==> PairCount(models) == 0
  {
    EntriesCount(models);
    var out := SortBy(Entries(models), Upper);
    assert |multiset(out)| == |multiset(Entries(models))|;
  }

  /** Joining lines that each end "]\n", with the last one's newline stripped. */
  lemma JoinStripped(out: seq<string>)
    requires out != []
    requires |out[|out| - 1]| >= 2 && out[|out| - 1][|out[|out| - 1]| - 2] == ']'
    requires out[|out| - 1][|out[|out| - 1]| - 1] == '\n'
    ensures var r := Concat(out[..|out| - 1]) + RStripNewlines(out[|out| - 1]);
      r != "" && r[|r| - 1] == ']' && r + "\n" == Concat(out)
  {
    var e := out[|out| - 1];
    StripEntry(e);
    ConcatSnoc(out[..|out| - 1], e);
    assert out[..|out| - 1] + [e] == out;
  }

  /**
   * Otherwise `str(tracker)` ends with the last list's ']' and, with its
   * newline put back, is the concatenation of the pairs' lines sorted
   * case-insensitively.
   */
  lemma TrackerStringText(models: seq<ModelEntry>)
    requires TrackerString(models).Some?
    ensures var r := TrackerString(models).value;
      && r != "" && r[|r| - 1] == ']'
      && exists out :: && SortedBy(out, Upper)
                       && multiset(out) == multiset(Entries(models))
                       && r + "\n" == Concat(out)
  {
    var out := SortBy(Entries(models), Upper);
    var e := out[|out| - 1];
    assert e in multiset(Entries(models));
    var i, j := EntriesSound(models, e);
    JoinStripped(out);
  }

  /** The loop of `__str__` over one model's names. */
  method CollectNameLines(model: string, names: seq<NameEntry>) returns (lines: seq<string>)
    ensures lines == NameLines(model, names)
  {
    lines := [];
    for j := 0 to |names|
      invariant lines == NameLines(model, names[..j])
    {
      assert names[..j + 1][..j] == names[..j];
      lines := lines + [EntryLine(model, names[j])];
    }
    assert names[..|names|] == names;
  }

  // ---------------------------------------------------------------------
  // save_database: the post-processing of the dumped YAML text

  /** The blank line put before `line` when `prev` ends a firmware entry. */
  function Gap(prev: string, line: string): (g: seq<string>)
    ensures g == [] || g == [""]
  {
    if Contains(prev, "nb_registers") && !Contains(line, "firmware_uuid") then [""] else []
  }

  /** `new_yaml_lines` once the first `n` lines have been visited; line 0 is skipped. */
  function Spaced(ls: seq<string>, n: nat): seq<string>
    requires n <= |ls|
  {
    if n <= 1 then [] else Spaced(ls, n - 1) + Gap(ls[n - 2], ls[n - 1]) + [ls[n - 1]]
  }

  /** How many blank lines the first `n` visited lines receive. */
  function Blanks(ls: seq<string>, n: nat): nat
    requires n <= |ls|
  {
    if n <= 1 then 0 else Blanks(ls, n - 1) + |Gap(ls[n - 2], ls[n - 1])|
  }

  /** Where line `i` (1 <= i) ends up: after the i - 1 kept lines before it and their blanks. */
  function Pos(ls: seq<string>, i: nat): int
    requires i < |ls|
  {
    i - 1 + Blanks(ls, i + 1)
  }

  /** The text save_database writes, given the text the YAML dump produced. */
  function FormatDatabase(yamlStr: string): string
  {
    var ls := Split(yamlStr, '\n');
    Join(Spaced(ls, |ls|), '\n')
  }

  /** The output holds every line but the first, plus one blank line per gap. */
  lemma {:induction false} SpacedLength(ls: seq<string>, n: nat)
    requires 1 <= n <= |ls|
    ensures |Spaced(ls, n)| == n - 1 + Blanks(ls, n)
  {
    if n > 1 {
      SpacedLength(ls, n - 1);
    }
  }

  /** Visiting more lines only appends to the output. */
  lemma {:induction false} SpacedPrefix(ls: seq<string>, m: nat, n: nat)
    requires m <= n <= |ls|
    ensures Spaced(ls, m) <= Spaced(ls, n)
    decreases n - m
  {
    if m < n {
      SpacedPrefix(ls, m, n - 1);
    }
  }

  /**
   * Every line but the first keeps its order: line i sits at Pos(ls, i); just
   * before it is a blank line exactly when the previous YAML line holds
   * "nb_registers" and line i lacks "firmware_uuid", and otherwise line i - 1
   * (nothing, for line 1).
   */
  lemma SpacedLine(ls: seq<string>, i: nat)
    requires 1 <= i < |ls|
    ensures var out := Spaced(ls, |ls|);
      && 0 <= Pos(ls, i) < |out| && out[Pos(ls, i)] == ls[i]
      && (Contains(ls[i - 1], "nb_registers") && !Contains(ls[i], "firmware_uuid") ==>
            Pos(ls, i) >= 1 && out[Pos(ls, i) - 1] == "")
      && (!(Contains(ls[i - 1], "nb_registers") && !Contains(ls[i], "firmware_uuid")) ==>
            (i == 1 ==> Pos(ls, i) == 0) && (i > 1 ==> out[Pos(ls, i) - 1] == ls[i - 1]))
  {
    var out := Spaced(ls, |ls|);
    var upto := Spaced(ls, i + 1);
    SpacedPrefix(ls, i + 1, |ls|);
    SpacedLength(ls, i + 1);
    assert upto == Spaced(ls, i) + Gap(ls[i - 1], ls[i]) + [ls[i]];
    assert |upto| == Pos(ls, i) + 1;
    assert out[Pos(ls, i)] == upto[Pos(ls, i)];
    if Pos(ls, i) >= 1 {
      assert out[Pos(ls, i) - 1] == upto[Pos(ls, i) - 1];
    }
    if i > 1 && Gap(ls[i - 1], ls[i]) == [] {
      var before := Spaced(ls, i);
      assert before == Spaced(ls, i - 1) + Gap(ls[i - 2], ls[i - 1]) + [ls[i - 1]];
      assert upto[Pos(ls, i) - 1] == before[|before| - 1];
    }
  }

  /** Splitting the written text at newlines gives back the spaced lines. */
  lemma FormatDatabaseLines(yamlStr: string)
    requires '\n' in yamlStr
    ensures var ls := Split(yamlStr, '\n');
      Split(FormatDatabase(yamlStr), '\n') == Spaced(ls, |ls|)
  {
    var ls := Split(yamlStr, '\n');
    JoinSplit(yamlStr, '\n');
    assert |ls| >= 2;
    SpacedLength(ls, |ls|);
    var out := Spaced(ls, |ls|);
    forall k | 0 <= k < |out|
      ensures '\n' !in out[k]
    {
      SpacedMember(ls, |ls|, k);
    }
    SplitJoin(out, '\n');
  }

  /** Every output line is a blank or one of the YAML lines. */
  lemma {:induction false} SpacedMember(ls: seq<string>, n: nat, k: nat)
    requires n <= |ls| && k < |Spaced(ls, n)|
    ensures Spaced(ls, n)[k] == "" || Spaced(ls, n)[k] in ls
  {
    if n > 1 {
      var prev := Spaced(ls, n - 1);
      if k < |prev| {
        SpacedMember(ls, n - 1, k);
      }
    }
  }

  /** The loop of save_database that builds `new_yaml_lines`. */
  method SpaceLines(yamlLines: seq<string>) returns (newLines: seq<string>)
    ensures newLines == Spaced(yamlLines, |yamlLines|)
  {
    newLines := [];
    for i := 0 to |yamlLines|
      invariant newLines == Spaced(yamlLines, i)
    {
      if i == 0 {
        continue;
      }
      var previousLine := yamlLines[i - 1];
      if Contains(previousLine, "nb_registers") && !Contains(yamlLines[i], "firmware_uuid") {
        newLines := newLines + [""];
      }
      newLines := newLines + [yamlLines[i]];
    }
  }

  /** The text the YAML dump produced, split, spaced and joined again. */
  method FormatYaml(yamlStr: string) returns (formatted: string)
    ensures formatted == FormatDatabase(yamlStr)
  {
    var yamlLines := Split(yamlStr, '\n');
    var newLines := SpaceLines(yamlLines);
    formatted := Join(newLines, '\n');
  }
}
