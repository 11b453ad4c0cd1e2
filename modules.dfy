/**
 * ModuleDescriptor and Module: a PXI card is described by its model number,
 * chassis, slot, options and virtual-gate card number, and gets an HVI engine
 * name from its model; a Module then picks the FPGA firmware to load from
 * the model, the quantum-dot emulator flag and the virtual-gate settings.
 */
module Modules {
  import opened Wrappers
  import opened Text

  const Digitizer: string := "M3100A"
  const Awg1GSa: string := "M3201A"
  const Awg500MSa: string := "M3202A"

  datatype Descriptor = Descriptor(
    modelNumber: string, chassisNumber: int, slotNumber: int, options: string,
    cardNumVg: int, engineName: string)

  datatype ModuleError =
    | VgCardOutOfRange(card: int)
    | UnsupportedModel(model: string)
    | UnsupportedVgModuleCount(count: int)

  /**
   * The firmware a module loads, named by the configuration entry it comes
   * from; the card-indexed lists are indexed by the virtual-gate card number.
   */
  datatype FirmwareChoice =
    | QdEmulatorFirmware
    | DigitizerDefaultFirmware
    | VirtualGatesFirmware(model: string)
    | VoltageRegistersFirmware(model: string)
    | VgCc8Firmware(model: string, card: int)
    | VgCc12Firmware(model: string, card: int)

  /**
   * The descriptor's digitizer test is `model_number in ("M3100A")`, a
   * substring test on the string "M3100A"; the AWG test is membership in a
   * pair of model numbers.
   */
  predicate IsDigitizerModel(model: string)
  {
    Contains(Digitizer, model)
  }

  predicate IsAwgModel(model: string)
  {
    model == Awg1GSa || model == Awg500MSa
  }

  /** ModuleDescriptor.__init__. */
  function NewDescriptor(model: string, chassis: int, slot: int, options: string, cardNumVg: int)
    : (r: Result<Descriptor, ModuleError>)
    ensures r.Success? <==> 0 <= cardNumVg <= 3 && (IsDigitizerModel(model) || IsAwgModel(model))
    ensures r.Success? ==>
      && r.value.modelNumber == model && r.value.chassisNumber == chassis && r.value.slotNumber == slot
      && r.value.options == options && r.value.cardNumVg == cardNumVg
      && r.value.engineName
         == (if IsDigitizerModel(model) then "Digitizer Engine " else "AWG Engine ") + IntToString(slot)
    ensures !(0 <= cardNumVg <= 3) ==> r == Failure(VgCardOutOfRange(cardNumVg))
  {
    if cardNumVg < 0 || cardNumVg > 3 then Failure(VgCardOutOfRange(cardNumVg))
    else if IsDigitizerModel(model) then
      Success(Descriptor(model, chassis, slot, options, cardNumVg, "Digitizer Engine " + IntToString(slot)))
    else if IsAwgModel(model) then
      Success(Descriptor(model, chassis, slot, options, cardNumVg, "AWG Engine " + IntToString(slot)))
    else Failure(UnsupportedModel(model))
  }

  /** The settings Module.__init__ reads from the application configuration. */
  datatype FirmwareSettings = FirmwareSettings(useQdEmulator: bool, useVirtualGates: bool, nbVgAwgModules: int)

  /** The firmware decision table of Module.__init__. */
  function ChooseFirmware(cfg: FirmwareSettings, model: string, card: int): (r: Result<FirmwareChoice, ModuleError>)
    ensures r.Failure? <==>
      || !(model == Digitizer || IsAwgModel(model))
      || (model == Awg500MSa && cfg.useVirtualGates && !(1 <= cfg.nbVgAwgModules <= 3))
      || (model == Awg1GSa && cfg.useVirtualGates && !(1 <= cfg.nbVgAwgModules <= 2))
  {
    if model == Digitizer then
      Success(if cfg.useQdEmulator then QdEmulatorFirmware else DigitizerDefaultFirmware)
    else if model == Awg500MSa then
      if cfg.useVirtualGates then
        if cfg.nbVgAwgModules == 1 then
          Success(if card == 1 then VirtualGatesFirmware(model) else VoltageRegistersFirmware(model))
        else if cfg.nbVgAwgModules == 2 then Success(VgCc8Firmware(model, card))
        else if cfg.nbVgAwgModules == 3 then Success(VgCc12Firmware(model, card))
        else Failure(UnsupportedVgModuleCount(cfg.nbVgAwgModules))
      else Success(VoltageRegistersFirmware(model))
    else if model == Awg1GSa then
      if cfg.useVirtualGates then
        if cfg.nbVgAwgModules == 1 then
          Success(if card == 1 then VirtualGatesFirmware(model) else VoltageRegistersFirmware(model))
        else if cfg.nbVgAwgModules == 2 then Success(VgCc8Firmware(model, card))
        else Failure(UnsupportedVgModuleCount(cfg.nbVgAwgModules))
      else Success(VoltageRegistersFirmware(model))
    else Failure(UnsupportedModel(model))
  }

  /** A module: its descriptor, its channel count and its firmware. */
  datatype ModuleInfo = ModuleInfo(descriptor: Descriptor, numChannels: int, firmware: FirmwareChoice)

  /**
   * Module.__init__: the firmware is chosen first, from the descriptor's model
   * compared by equality, then the descriptor is rebuilt.
   */
  function NewModule(cfg: FirmwareSettings, numChannels: int, d: Descriptor): (r: Result<ModuleInfo, ModuleError>)
    ensures r.Success? ==> r.value.descriptor.modelNumber == d.modelNumber && r.value.numChannels == numChannels
  {
    match ChooseFirmware(cfg, d.modelNumber, d.cardNumVg)
    case Failure(e) => Failure(e)
    case Success(fw) =>
      match NewDescriptor(d.modelNumber, d.chassisNumber, d.slotNumber, d.options, d.cardNumVg)
      case Failure(e) => Failure(e)
      case Success(d2) => Success(ModuleInfo(d2, numChannels, fw))
  }

  /**
   * For a descriptor that was accepted, building the module fails exactly
   * when the firmware table fails, and it keeps the descriptor and the chosen
   * firmware otherwise.
   */
  lemma NewModuleOfAcceptedDescriptor(cfg: FirmwareSettings, numChannels: int,
                                      model: string, chassis: int, slot: int, options: string, card: int)
    requires NewDescriptor(model, chassis, slot, options, card).Success?
    ensures var d := NewDescriptor(model, chassis, slot, options, card).value;
      var r := NewModule(cfg, numChannels, d);
      && (r.Success? <==> ChooseFirmware(cfg, model, card).Success?)
      && (r.Success? ==> r.value == ModuleInfo(d, numChannels, ChooseFirmware(cfg, model, card).value))
  {
  }

  /** A digitizer's firmware depends only on the emulator flag. */
  lemma DigitizerFirmware(cfg: FirmwareSettings, card: int)
    ensures ChooseFirmware(cfg, Digitizer, card)
      == Success(if cfg.useQdEmulator then QdEmulatorFirmware else DigitizerDefaultFirmware)
  {
  }

  /** Without virtual gates every AWG loads the voltage-registers firmware of its model. */
  lemma AwgWithoutVirtualGates(cfg: FirmwareSettings, model: string, card: int)
    requires IsAwgModel(model) && !cfg.useVirtualGates
    ensures ChooseFirmware(cfg, model, card) == Success(VoltageRegistersFirmware(model))
  {
  }

  /**
   * With virtual gates on one module only card 1 loads the virtual-gates
   * firmware; with two or three modules every card loads the entry of its
   * card number in the CC8 or CC12 list.
   */
  lemma AwgWithVirtualGates(cfg: FirmwareSettings, model: string, card: int)
    requires IsAwgModel(model) && cfg.useVirtualGates
    ensures cfg.nbVgAwgModules == 1 ==>
      ChooseFirmware(cfg, model, card)
        == Success(if card == 1 then VirtualGatesFirmware(model) else VoltageRegistersFirmware(model))
    ensures cfg.nbVgAwgModules == 2 ==> ChooseFirmware(cfg, model, card) == Success(VgCc8Firmware(model, card))
    ensures cfg.nbVgAwgModules == 3 && model == Awg500MSa ==>
      ChooseFirmware(cfg, model, card) == Success(VgCc12Firmware(model, card))
  {
  }

  /**
   * The descriptor's substring test accepts fragments of "M3100A" such as
   * "M31" as digitizers, while Module.__init__ compares by equality and
   * rejects them.
   */
  lemma SubstringModelPassesDescriptorOnly()
    ensures NewDescriptor("M31", 1, 5, "", 0).Success?
    ensures NewDescriptor("M31", 1, 5, "", 0).value.engineName == "Digitizer Engine 5"
    ensures NewModule(FirmwareSettings(false, false, 0), 4, NewDescriptor("M31", 1, 5, "", 0).value)
      == Failure(UnsupportedModel("M31"))
  {
    assert "M31" <= Digitizer;
    assert IntToString(5) == "5";
  }

  /** Among the models a module accepts, the descriptor's substring test singles out exactly the digitizer. */
  lemma ModuleModelsPassDescriptor(model: string)
    requires model == Digitizer || IsAwgModel(model)
    ensures IsDigitizerModel(model) <==> model == Digitizer
  {
    if model == Awg1GSa || model == Awg500MSa {
      assert !Contains(Digitizer, model) by {
        ContainsLonger(Digitizer, model);
      }
    } else {
      assert model <= Digitizer;
    }
  }

  lemma {:induction false} ContainsLonger(s: string, sub: string)
    requires |sub| == |s| && sub != s
    ensures !Contains(s, sub)
  {
    if |s| > 0 {
      NotContainsShorter(s[1..], sub);
    }
  }

  lemma {:induction false} NotContainsShorter(s: string, sub: string)
    requires |sub| > |s|
    ensures !Contains(s, sub)
  {
    if |s| > 0 {
      NotContainsShorter(s[1..], sub);
    }
  }
}
