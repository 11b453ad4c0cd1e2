/**
 * Config2D.from_yaml: the checks on the module descriptors of the YAML
 * configuration. YAML parsing is a library call: the descriptors come in as
 * entries in the file's key order. The rewrite of the step counts into the
 * file is the module YamlRewrite.
 */
module YamlConfig {
  import opened Wrappers
  import opened Text
  import opened Modules

  /** One `*descriptor*` entry of the YAML file. */
  datatype DescriptorEntry = DescriptorEntry(
    key: string, model: string, chassis: int, slot: int, options: string, card: int)

  datatype ConfigError =
    | MissingDescriptor(key: string)                  // KeyError
    | InvalidDescriptor(key: string, error: ModuleError)
    | TooManyVgModules(count: int)                    // ValueError
    | DuplicateVgCard                                 // ValueError

  /** The descriptors and engine names from_yaml settles on. */
  datatype Setup = Setup(
    chassisList: seq<int>, modules: seq<Descriptor>, nbVgAwgModules: int,
    mainEngine: string, secondaryEngine: string, digEngine: string)

  // ---------------------------------------------------------------------
  // chassis_list = sorted(set(chassis numbers))

  predicate StrictlyIncreasing(s: seq<int>)
  {
    forall i, j :: 0 <= i < j < |s| ==> s[i] < s[j]
  }

  function Insert(s: seq<int>, x: int): (r: seq<int>)
    requires StrictlyIncreasing(s)
    ensures StrictlyIncreasing(r)
    ensures forall y :: y in r <==> y in s || y == x
  {
    if s == [] then [x]
    else if x < s[0] then [x] + s
    else if x == s[0] then s
    else
      TailAbove(s);
      var rest := Insert(s[1..], x);
      ConsIncreasing(s[0], rest);
      [s[0]] + rest
  }

  lemma TailAbove(s: seq<int>)
    requires StrictlyIncreasing(s) && s != []
    ensures StrictlyIncreasing(s[1..])
    ensures forall y :: y in s[1..] ==> y > s[0]
  {
    forall y | y in s[1..] ensures y > s[0] {
      var k :| 0 <= k < |s[1..]| && s[1..][k] == y;
      assert s[k + 1] == y;
    }
  }

  lemma ConsIncreasing(h: int, rest: seq<int>)
    requires StrictlyIncreasing(rest) && forall y :: y in rest ==> y > h
    ensures StrictlyIncreasing([h] + rest)
  {
    var r := [h] + rest;
    forall i, j | 0 <= i < j < |r| ensures r[i] < r[j] {
      assert r[j] == rest[j - 1];
      if i > 0 {
        assert r[i] == rest[i - 1];
      } else {
        assert rest[j - 1] in rest;
      }
    }
  }

  /** The distinct chassis numbers of the entries, in increasing order. */
  function ChassisList(entries: seq<DescriptorEntry>): (r: seq<int>)
    ensures StrictlyIncreasing(r)
    ensures forall c :: c in r <==> exists i :: 0 <= i < |entries| && entries[i].chassis == c
  {
    if entries == [] then []
    else
      var rest := ChassisList(entries[1..]);
      assert forall i :: 0 < i < |entries| ==> entries[i] == entries[1..][i - 1];
      assert forall i :: 0 <= i < |entries| - 1 ==> entries[1..][i] == entries[i + 1];
      Insert(rest, entries[0].chassis)
  }

  // ---------------------------------------------------------------------
  // The descriptors.

  /** `data[key]`: the first entry with that key. */
  function Lookup(entries: seq<DescriptorEntry>, key: string): (r: Option<DescriptorEntry>)
    ensures r.Some? <==> exists i :: 0 <= i < |entries| && entries[i].key == key
    ensures r.Some? ==> r.value in entries && r.value.key == key
  {
    if entries == [] then None
    else if entries[0].key == key then Some(entries[0])
    else
      assert forall i :: 0 < i < |entries| ==> entries[i] == entries[1..][i - 1];
      Lookup(entries[1..], key)
  }

  /**
   * A YAML mapping has no repeated keys, so when the entries come from one
   * the first entry with the key is the only one.
   */
  lemma {:induction false} LookupDistinctKeys(entries: seq<DescriptorEntry>, key: string, i: nat)
    requires forall j, k :: 0 <= j < k < |entries| ==> entries[j].key != entries[k].key
    requires i < |entries| && entries[i].key == key
    ensures Lookup(entries, key) == Some(entries[i])
  {
    if i > 0 {
      assert entries[1..][i - 1] == entries[i];
      assert forall j, k :: 0 <= j < k < |entries| - 1 ==> entries[1..][j] == entries[j + 1] && entries[1..][k] == entries[k + 1];
      LookupDistinctKeys(entries[1..], key, i - 1);
    }
  }

  /** `ModuleDescriptor.from_dict(data[key])`. */
  function FromEntry(e: DescriptorEntry): (r: Result<Descriptor, ConfigError>)
    ensures r.Success? <==> NewDescriptor(e.model, e.chassis, e.slot, e.options, e.card).Success?
    ensures r.Success? ==> r.value == NewDescriptor(e.model, e.chassis, e.slot, e.options, e.card).value
  {
    match NewDescriptor(e.model, e.chassis, e.slot, e.options, e.card)
    case Failure(err) => Failure(InvalidDescriptor(e.key, err))
    case Success(d) => Success(d)
  }

  function LookupDescriptor(entries: seq<DescriptorEntry>, key: string): Result<Descriptor, ConfigError>
  {
    match Lookup(entries, key)
    case None => Failure(MissingDescriptor(key))
    case Some(e) => FromEntry(e)
  }

  predicate IsExtra(key: string)
  {
    key == "third_awg_descriptor" || key == "fourth_awg_descriptor"
  }

  /**
   * The three ways a descriptor is left out of module_descriptors: the
   * secondary AWG when it is the main AWG's module, the third and fourth
   * AWGs without virtual gates, and those with virtual gates but card 0.
   */
  predicate Skipped(key: string, d: Descriptor, sameEngine: bool, useVirtualGates: bool)
  {
    || (sameEngine && key == "secondary_awg_descriptor")
    || (!useVirtualGates && IsExtra(key))
    || (useVirtualGates && IsExtra(key) && d.cardNumVg == 0)
  }

  /**
   * The descriptor loop over the entries: every entry is built first, so an
   * invalid one fails even when it would be skipped; the others are kept in
   * order.
   */
  function Collected(entries: seq<DescriptorEntry>, sameEngine: bool, useVirtualGates: bool)
    : Result<seq<Descriptor>, ConfigError>
    decreases |entries|
  {
    if entries == [] then Success([])
    else
      var last := entries[|entries| - 1];
      match Collected(entries[..|entries| - 1], sameEngine, useVirtualGates)
      case Failure(e) => Failure(e)
      case Success(ds) =>
        match FromEntry(last)
        case Failure(e) => Failure(e)
        case Success(d) => Success(if Skipped(last.key, d, sameEngine, useVirtualGates) then ds else ds + [d])
  }

  /** AWG modules used for virtual gates: an "AWG" engine with a card number above 0. */
  predicate UsesVirtualGates(d: Descriptor)
  {
    Contains(d.engineName, "AWG") && d.cardNumVg > 0
  }

  function CountVg(mods: seq<Descriptor>): (n: nat)
    ensures n <= |mods|
    decreases |mods|
  {
    if mods == [] then 0
    else CountVg(mods[..|mods| - 1]) + (if UsesVirtualGates(mods[|mods| - 1]) then 1 else 0)
  }

  /** The card numbers of all AWG modules, in order. */
  function VgCards(mods: seq<Descriptor>): (cards: seq<int>)
    ensures |cards| <= |mods|
    decreases |mods|
  {
    if mods == [] then []
    else
      var d := mods[0];
      (if Contains(d.engineName, "AWG") then [d.cardNumVg] else []) + VgCards(mods[1..])
  }

  predicate Distinct(s: seq<int>)
  {
    forall i, j :: 0 <= i < j < |s| ==> s[i] != s[j]
  }

  /** What the descriptor checks of from_yaml settle on, or the first error they raise. */
  function FromYamlSetup(entries: seq<DescriptorEntry>, useVirtualGates: bool): Result<Setup, ConfigError>
  {
    var chassis := ChassisList(entries);
    match LookupDescriptor(entries, "main_awg_descriptor")
    case Failure(e) => Failure(e)
    case Success(main) =>
      match LookupDescriptor(entries, "secondary_awg_descriptor")
      case Failure(e) => Failure(e)
      case Success(secondary) =>
        match LookupDescriptor(entries, "digitizer_descriptor")
        case Failure(e) => Failure(e)
        case Success(dig) =>
          var sameEngine := main.engineName == secondary.engineName;
          match Collected(entries, sameEngine, useVirtualGates)
          case Failure(e) => Failure(e)
          case Success(mods) =>
            var nb := CountVg(mods);
            var maxVg := if sameEngine then 4 else 3;
            if nb > maxVg then Failure(TooManyVgModules(nb))
            else if useVirtualGates && !Distinct(VgCards(mods)) then Failure(DuplicateVgCard)
            else Success(Setup(chassis, mods, nb, main.engineName, secondary.engineName, dig.engineName))
  }

  /** from_yaml's descriptor part: the lookups, the module loop, the virtual-gate count and the two checks. */
  method FromYaml(entries: seq<DescriptorEntry>, useVirtualGates: bool) returns (r: Result<Setup, ConfigError>)
    ensures r == FromYamlSetup(entries, useVirtualGates)
  {
    var chassis := ChassisList(entries);
    var main := LookupDescriptor(entries, "main_awg_descriptor");
    if main.Failure? {
      return Failure(main.error);
    }
    var secondary := LookupDescriptor(entries, "secondary_awg_descriptor");
    if secondary.Failure? {
      return Failure(secondary.error);
    }
    var dig := LookupDescriptor(entries, "digitizer_descriptor");
    if dig.Failure? {
      return Failure(dig.error);
    }
    var sameEngine := main.value.engineName == secondary.value.engineName;
    var collected := CollectModules(entries, sameEngine, useVirtualGates);
    if collected.Failure? {
      return Failure(collected.error);
    }
    var mods := collected.value;
    var nb := CountVgModules(mods);
    var maxVg := if sameEngine then 4 else 3;
    if nb > maxVg {
      return Failure(TooManyVgModules(nb));
    }
    if useVirtualGates && !Distinct(VgCards(mods)) {
      return Failure(DuplicateVgCard);
    }
    r := Success(Setup(chassis, mods, nb, main.value.engineName, secondary.value.engineName, dig.value.engineName));
  }

  /** `for name in all_descritptor_names:` building module_descriptors. */
  method CollectModules(entries: seq<DescriptorEntry>, sameEngine: bool, useVirtualGates: bool)
    returns (r: Result<seq<Descriptor>, ConfigError>)
    ensures r == Collected(entries, sameEngine, useVirtualGates)
  {
    var mods: seq<Descriptor> := [];
    for i := 0 to |entries|
      invariant Collected(entries[..i], sameEngine, useVirtualGates) == Success(mods)
    {
      assert entries[..i + 1][..i] == entries[..i];
      var d := FromEntry(entries[i]);
      if d.Failure? {
        CollectedFailurePersists(entries, i + 1, sameEngine, useVirtualGates);
        assert entries[..|entries|] == entries;
        return Failure(d.error);
      }
      if !Skipped(entries[i].key, d.value, sameEngine, useVirtualGates) {
        mods := mods + [d.value];
      }
    }
    assert entries[..|entries|] == entries;
    r := Success(mods);
  }

  /** `for module in module_descriptors:` counting the virtual-gate AWG modules. */
  method CountVgModules(mods: seq<Descriptor>) returns (nb: int)
    ensures nb == CountVg(mods)
  {
    nb := 0;
    for i := 0 to |mods|
      invariant nb == CountVg(mods[..i])
    {
      assert mods[..i + 1][..i] == mods[..i];
      if Contains(mods[i].engineName, "AWG") {
        if mods[i].cardNumVg > 0 {
          nb := nb + 1;
        }
      }
    }
    assert mods[..|mods|] == mods;
  }

  /** Once the loop has raised, the longer lists of entries raise the same error. */
  lemma {:induction false} CollectedFailurePersists(entries: seq<DescriptorEntry>, i: nat, sameEngine: bool, useVirtualGates: bool)
    requires i <= |entries|
    requires Collected(entries[..i], sameEngine, useVirtualGates).Failure?
    ensures Collected(entries, sameEngine, useVirtualGates) == Collected(entries[..i], sameEngine, useVirtualGates)
    decreases |entries| - i
  {
    if i < |entries| {
      assert entries[..i + 1][..i] == entries[..i];
      CollectedFailurePersists(entries, i + 1, sameEngine, useVirtualGates);
    } else {
      assert entries[..i] == entries;
    }
  }

  /** A configuration is only accepted when every one of its descriptors is valid. */
  lemma {:induction false} CollectedBuildsAll(entries: seq<DescriptorEntry>, sameEngine: bool, useVirtualGates: bool, j: nat)
    requires Collected(entries, sameEngine, useVirtualGates).Success?
    requires j < |entries|
    ensures FromEntry(entries[j]).Success?
    decreases |entries|
  {
    var init := entries[..|entries| - 1];
    if j < |init| {
      CollectedBuildsAll(init, sameEngine, useVirtualGates, j);
      assert init[j] == entries[j];
    }
  }

  /** Every kept module is the descriptor of an entry that is not skipped. */
  lemma {:induction false} CollectedSound(entries: seq<DescriptorEntry>, sameEngine: bool, useVirtualGates: bool, d: Descriptor)
    requires Collected(entries, sameEngine, useVirtualGates).Success?
    requires d in Collected(entries, sameEngine, useVirtualGates).value
    ensures exists j :: 0 <= j < |entries| && FromEntry(entries[j]) == Success(d)
                        && !Skipped(entries[j].key, d, sameEngine, useVirtualGates)
    decreases |entries|
  {
    var init := entries[..|entries| - 1];
    var last := entries[|entries| - 1];
    var ds := Collected(init, sameEngine, useVirtualGates).value;
    if d in ds {
      CollectedSound(init, sameEngine, useVirtualGates, d);
      var j :| 0 <= j < |init| && FromEntry(init[j]) == Success(d) && !Skipped(init[j].key, d, sameEngine, useVirtualGates);
      assert init[j] == entries[j];
    } else {
      assert FromEntry(last) == Success(d);
    }
  }

  /** Every entry that is not skipped has its descriptor kept. */
  lemma {:induction false} CollectedComplete(entries: seq<DescriptorEntry>, sameEngine: bool, useVirtualGates: bool, j: nat)
    requires Collected(entries, sameEngine, useVirtualGates).Success?
    requires j < |entries|
    ensures FromEntry(entries[j]).Success?
    ensures !Skipped(entries[j].key, FromEntry(entries[j]).value, sameEngine, useVirtualGates)
      ==> FromEntry(entries[j]).value in Collected(entries, sameEngine, useVirtualGates).value
    decreases |entries|
  {
    CollectedBuildsAll(entries, sameEngine, useVirtualGates, j);
    var init := entries[..|entries| - 1];
    if j < |init| {
      CollectedComplete(init, sameEngine, useVirtualGates, j);
      assert init[j] == entries[j];
    }
  }

  /**
   * Without virtual gates no third or fourth AWG is kept, and when the
   * secondary AWG is the main AWG's module the secondary descriptor is not
   * kept a second time.
   */
  lemma SkippedDescriptors(entries: seq<DescriptorEntry>, sameEngine: bool, useVirtualGates: bool, d: Descriptor)
    requires Collected(entries, sameEngine, useVirtualGates).Success?
    requires d in Collected(entries, sameEngine, useVirtualGates).value
    ensures exists j ::
      && 0 <= j < |entries| && FromEntry(entries[j]) == Success(d)
      && (!useVirtualGates ==> !IsExtra(entries[j].key))
      && (sameEngine ==> entries[j].key != "secondary_awg_descriptor")
      && (IsExtra(entries[j].key) ==> d.cardNumVg != 0)
  {
    CollectedSound(entries, sameEngine, useVirtualGates, d);
  }

  // ---------------------------------------------------------------------
  // The checks.

  /**
   * An accepted configuration has at most 3 virtual-gate AWG modules (4
   * descriptors when main and secondary share a module), distinct card
   * numbers among its AWG modules when virtual gates are on, and a sorted,
   * duplicate-free chassis list of exactly the descriptors' chassis.
   */
  lemma FromYamlAccepted(entries: seq<DescriptorEntry>, useVirtualGates: bool)
    requires FromYamlSetup(entries, useVirtualGates).Success?
    ensures var st := FromYamlSetup(entries, useVirtualGates).value;
      && st.nbVgAwgModules == CountVg(st.modules)
      && st.nbVgAwgModules <= (if st.mainEngine == st.secondaryEngine then 4 else 3)
      && (useVirtualGates ==> Distinct(VgCards(st.modules)))
      && StrictlyIncreasing(st.chassisList)
      && (forall c :: c in st.chassisList <==> exists i :: 0 <= i < |entries| && entries[i].chassis == c)
      && Collected(entries, st.mainEngine == st.secondaryEngine, useVirtualGates) == Success(st.modules)
  {
  }

  /** Given the descriptors, the two checks reject exactly the configurations that break them. */
  lemma FromYamlRejects(entries: seq<DescriptorEntry>, useVirtualGates: bool, main: Descriptor, secondary: Descriptor,
                        mods: seq<Descriptor>)
    requires LookupDescriptor(entries, "main_awg_descriptor") == Success(main)
    requires LookupDescriptor(entries, "secondary_awg_descriptor") == Success(secondary)
    requires LookupDescriptor(entries, "digitizer_descriptor").Success?
    requires Collected(entries, main.engineName == secondary.engineName, useVirtualGates) == Success(mods)
    ensures var r := FromYamlSetup(entries, useVirtualGates);
      var maxVg := if main.engineName == secondary.engineName then 4 else 3;
      && (r == Failure(TooManyVgModules(CountVg(mods))) <==> CountVg(mods) > maxVg)
      && (r == Failure(DuplicateVgCard) <==>
            CountVg(mods) <= maxVg && useVirtualGates && !Distinct(VgCards(mods)))
      && (r.Success? <==> CountVg(mods) <= maxVg && (useVirtualGates ==> Distinct(VgCards(mods))))
  {
  }

  /** `len(cards) != len(set(cards))` is the same test as a repeated card number. */
  lemma {:induction false} DistinctIffSetSize(s: seq<int>)
    ensures |set x | x in s| <= |s|
    ensures Distinct(s) <==> |set x | x in s| == |s|
    decreases |s|
  {
    if s != [] {
      var t := s[1..];
      DistinctIffSetSize(t);
      assert (set x | x in s) == {s[0]} + (set x | x in t);
      assert forall i :: 0 < i < |s| ==> s[i] == t[i - 1];
      if s[0] in t {
        assert (set x | x in s) == (set x | x in t);
        var j :| 0 <= j < |t| && t[j] == s[0];
        assert s[j + 1] == s[0];
      } else {
        assert Distinct(s) <==> Distinct(t);
      }
    }
  }

  /** Main and secondary AWG on two modules, both with card number 0, and a digitizer. */
  const CardZeroEntries: seq<DescriptorEntry> := [
    DescriptorEntry("main_awg_descriptor", "M3202A", 1, 2, "", 0),
    DescriptorEntry("secondary_awg_descriptor", "M3202A", 1, 3, "", 0),
    DescriptorEntry("digitizer_descriptor", "M3100A", 1, 5, "", 0)]

  const CardZeroModules: seq<Descriptor> := [
    Descriptor("M3202A", 1, 2, "", 0, "AWG Engine 2"),
    Descriptor("M3202A", 1, 3, "", 0, "AWG Engine 3"),
    Descriptor("M3100A", 1, 5, "", 0, "Digitizer Engine 5")]

  /**
   * With virtual gates on, the main and secondary AWG on two modules that
   * both carry card number 0 are rejected as duplicates, since card 0 only
   * exempts the third and fourth AWG from the list.
   */
  lemma CardZeroOnMainAndSecondaryRejected()
    ensures FromYamlSetup(CardZeroEntries, true) == Failure(DuplicateVgCard)
  {
    CardZeroLookups();
    CardZeroCollected();
    CardZeroCards();
    assert CardZeroModules[0].engineName != CardZeroModules[1].engineName;
  }

  lemma CardZeroLookups()
    ensures LookupDescriptor(CardZeroEntries, "main_awg_descriptor") == Success(CardZeroModules[0])
    ensures LookupDescriptor(CardZeroEntries, "secondary_awg_descriptor") == Success(CardZeroModules[1])
    ensures LookupDescriptor(CardZeroEntries, "digitizer_descriptor") == Success(CardZeroModules[2])
  {
    CardZeroDescriptors();
  }

  lemma CardZeroDescriptors()
    ensures FromEntry(CardZeroEntries[0]) == Success(CardZeroModules[0])
    ensures FromEntry(CardZeroEntries[1]) == Success(CardZeroModules[1])
    ensures FromEntry(CardZeroEntries[2]) == Success(CardZeroModules[2])
  {
    assert IntToString(2) == "2" && IntToString(3) == "3" && IntToString(5) == "5";
    assert !Contains(Digitizer, "M3202A") by { ContainsLonger(Digitizer, "M3202A"); }
    assert Contains(Digitizer, "M3100A") by { assert "M3100A" <= Digitizer; }
    assert !IsDigitizerModel("M3202A") && IsAwgModel("M3202A") && IsDigitizerModel("M3100A");
    assert "AWG Engine " + "2" == "AWG Engine 2" && "AWG Engine " + "3" == "AWG Engine 3";
    assert "Digitizer Engine " + "5" == "Digitizer Engine 5";
    assert NewDescriptor("M3202A", 1, 2, "", 0) == Success(CardZeroModules[0]);
    assert NewDescriptor("M3202A", 1, 3, "", 0) == Success(CardZeroModules[1]);
    assert NewDescriptor("M3100A", 1, 5, "", 0) == Success(CardZeroModules[2]);
  }

  lemma CardZeroCollected()
    ensures Collected(CardZeroEntries, false, true) == Success(CardZeroModules)
  {
    CardZeroCollectedOne();
    CardZeroCollectedTwo();
    var es := CardZeroEntries;
    var ms := CardZeroModules;
    CardZeroDescriptors();
    CollectedAppend(es[..2], es[2], false, true);
    assert es[..2] + [es[2]] == es;
    assert ms[..2] + [ms[2]] == ms;
  }

  lemma CardZeroCollectedOne()
    ensures Collected(CardZeroEntries[..1], false, true) == Success(CardZeroModules[..1])
  {
    var es := CardZeroEntries;
    CardZeroDescriptors();
    CollectedAppend([], es[0], false, true);
    assert [] + [es[0]] == es[..1];
    assert [] + [CardZeroModules[0]] == CardZeroModules[..1];
  }

  lemma CardZeroCollectedTwo()
    ensures Collected(CardZeroEntries[..2], false, true) == Success(CardZeroModules[..2])
  {
    var es := CardZeroEntries;
    CardZeroCollectedOne();
    CardZeroDescriptors();
    CollectedAppend(es[..1], es[1], false, true);
    assert es[..1] + [es[1]] == es[..2];
    assert CardZeroModules[..1] + [CardZeroModules[1]] == CardZeroModules[..2];
  }

  lemma CardZeroCards()
    ensures CountVg(CardZeroModules) == 0
    ensures !Distinct(VgCards(CardZeroModules))
  {
    var ms := CardZeroModules;
    assert ms[..2][..1] == ms[..1] && ms[..1][..0] == [] && ms[..3] == ms;
    assert CountVg(ms[..1]) == 0;
    assert CountVg(ms[..2]) == 0;
    assert Contains(ms[0].engineName, "AWG") by { assert "AWG" <= ms[0].engineName; }
    assert Contains(ms[1].engineName, "AWG") by { assert "AWG" <= ms[1].engineName; }
    assert ms[1..][1..] == ms[2..];
    assert VgCards(ms)[0] == 0 && VgCards(ms)[1] == 0;
  }

  lemma CollectedAppend(init: seq<DescriptorEntry>, e: DescriptorEntry, sameEngine: bool, useVirtualGates: bool)
    requires Collected(init, sameEngine, useVirtualGates).Success? && FromEntry(e).Success?
    ensures var ds := Collected(init, sameEngine, useVirtualGates).value;
      var d := FromEntry(e).value;
      Collected(init + [e], sameEngine, useVirtualGates)
        == Success(if Skipped(e.key, d, sameEngine, useVirtualGates) then ds else ds + [d])
  {
    assert (init + [e])[..|init|] == init;
  }
}
