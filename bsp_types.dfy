/**
 * The board-support interface types (src/bsp/common/bsp.h) and the reference
 * meaning of its two pin lookups: by name, and the instance-th descriptor of
 * a function in table order.
 */
module BspTypes {
  import opened Wrappers
  import opened Bits

  /** bsp_mcu_family_t. */
  datatype McuFamily = Stm32L4xx | Stm32F4xx | Stm32H7xx | Stm32G4xx | Stm32Wb55 | UnknownFamily

  /** bsp_pin_function_t. */
  datatype PinFunction =
    | Led | Button | UartTx | UartRx | SpiSck | SpiMiso | SpiMosi | SpiCs
    | I2cScl | I2cSda | DebugTx | DebugRx | Custom

  /** A pin of a 16-pin GPIO port. */
  type PinNumber = x: nat | x < 16

  /** bsp_pin_config_t. */
  datatype PinDescriptor = PinDescriptor(
    name: string,
    portName: string,
    pin: PinNumber,
    pinFunction: PinFunction,
    alternateFunction: U32,
    activeHigh: bool)

  /** bsp_clock_config_t. */
  datatype ClockConfig = ClockConfig(
    hsiFrequencyHz: U32,
    hseFrequencyHz: U32,
    lsiFrequencyHz: U32,
    lseFrequencyHz: U32,
    targetSysclkHz: U32,
    targetHclkHz: U32,
    targetPclk1Hz: U32,
    targetPclk2Hz: U32,
    hseBypass: bool,
    lseBypass: bool)

  /** bsp_config_t (the opaque mcu_specific_data pointer is always NULL here and is not kept). */
  datatype BoardConfig = BoardConfig(
    boardName: string,
    mcuName: string,
    mcuFamily: McuFamily,
    flashSizeKb: U32,
    ramSizeKb: U32,
    pinCount: U32,
    pins: seq<PinDescriptor>,
    clockConfig: ClockConfig)

  /** The function tags of a pin table, in table order. */
  function Tags(pins: seq<PinDescriptor>): (t: seq<PinFunction>)
    ensures |t| == |pins|
    ensures forall i :: 0 <= i < |pins| ==> t[i] == pins[i].pinFunction
  {
    seq(|pins|, i requires 0 <= i < |pins| => pins[i].pinFunction)
  }

  /** How many of `tags` equal `f`. */
  function CountOf(tags: seq<PinFunction>, f: PinFunction): nat
  {
    if tags == [] then 0 else (if tags[0] == f then 1 else 0) + CountOf(tags[1..], f)
  }

  /**
   * The position of the k-th (0-based) entry tagged `f`, counting in table
   * order, or None when fewer than k + 1 entries are tagged `f`.
   */
  function NthMatch(tags: seq<PinFunction>, f: PinFunction, k: nat): (r: Option<nat>)
    ensures r.Some? ==> r.value < |tags| && tags[r.value] == f
  {
    if tags == [] then None
    else if tags[0] == f then
      (if k == 0 then Some(0) else Shift(NthMatch(tags[1..], f, k - 1), 1))
    else
      Shift(NthMatch(tags[1..], f, k), 1)
  }

  /**
   * NthMatch finds an entry exactly when more than k entries carry the tag,
   * and the entry it finds has exactly k entries with that tag before it.
   */
  lemma {:induction false} NthMatchCounts(tags: seq<PinFunction>, f: PinFunction, k: nat)
    ensures NthMatch(tags, f, k).Some? <==> k < CountOf(tags, f)
    ensures NthMatch(tags, f, k).Some? ==> CountOf(tags[..NthMatch(tags, f, k).value], f) == k
  {
    if tags != [] {
      var k' := if tags[0] == f then k - 1 else k;
      if tags[0] == f && k == 0 {
        assert tags[..0] == [];
      } else {
        NthMatchCounts(tags[1..], f, k');
        var r := NthMatch(tags[1..], f, k');
        if r.Some? {
          var i := r.value + 1;
          assert tags[..i][0] == tags[0];
          assert tags[..i][1..] == tags[1..][..r.value];
          assert CountOf(tags[..i], f) == (if tags[0] == f then 1 else 0) + CountOf(tags[1..][..r.value], f);
        }
        assert CountOf(tags, f) == (if tags[0] == f then 1 else 0) + CountOf(tags[1..], f);
      }
    }
  }

  /**
   * The converse of NthMatchCounts: an entry tagged `f` with exactly k
   * entries tagged `f` before it is the k-th match.
   */
  lemma {:induction false} NthMatchAtCount(tags: seq<PinFunction>, f: PinFunction, k: nat, i: nat)
    requires i < |tags| && tags[i] == f && CountOf(tags[..i], f) == k
    ensures NthMatch(tags, f, k) == Some(i)
  {
    if i > 0 {
      var prefix := tags[..i];
      assert prefix[0] == tags[0];
      assert prefix[1..] == tags[1..][..i - 1];
      var k' := if tags[0] == f then k - 1 else k;
      NthMatchAtCount(tags[1..], f, k', i - 1);
    }
  }

  /** No entry carries the tag, so none is counted. */
  lemma {:induction false} CountOfAbsent(tags: seq<PinFunction>, f: PinFunction)
    requires forall j :: 0 <= j < |tags| ==> tags[j] != f
    ensures CountOf(tags, f) == 0
  {
    if tags != [] {
      CountOfAbsent(tags[1..], f);
    }
  }

  /** Every entry carries the tag, so all are counted. */
  lemma {:induction false} CountOfUniform(tags: seq<PinFunction>, f: PinFunction)
    requires forall j :: 0 <= j < |tags| ==> tags[j] == f
    ensures CountOf(tags, f) == |tags|
  {
    if tags != [] {
      CountOfUniform(tags[1..], f);
    }
  }

  /**
   * One step of a scan for the k-th entry tagged `f` that has reached
   * position i: entry i is the match when it carries the tag and k is 0;
   * otherwise the scan continues at i + 1, looking for one match fewer when
   * entry i carries the tag.
   */
  lemma NthMatchAdvance(tags: seq<PinFunction>, f: PinFunction, k: nat, i: nat)
    requires i < |tags|
    ensures tags[i] == f && k == 0 ==> Shift(NthMatch(tags[i..], f, k), i) == Some(i)
    ensures tags[i] == f && k > 0 ==> Shift(NthMatch(tags[i..], f, k), i) == Shift(NthMatch(tags[i + 1..], f, k - 1), i + 1)
    ensures tags[i] != f ==> Shift(NthMatch(tags[i..], f, k), i) == Shift(NthMatch(tags[i + 1..], f, k), i + 1)
  {
    assert tags[i..][0] == tags[i];
    assert tags[i..][1..] == tags[i + 1..];
  }

  /**
   * The position of the first descriptor named `name`, or None when no
   * descriptor has that name.
   */
  function FirstNamed(pins: seq<PinDescriptor>, name: string): (r: Option<nat>)
    ensures r.Some? ==> r.value < |pins| && pins[r.value].name == name
    ensures r.Some? ==> forall j :: 0 <= j < r.value ==> pins[j].name != name
    ensures r.None? ==> forall j :: 0 <= j < |pins| ==> pins[j].name != name
  {
    if pins == [] then None
    else if pins[0].name == name then Some(0)
    else Shift(FirstNamed(pins[1..], name), 1)
  }

  /** A name that appears at position i and at no earlier position is found at i. */
  lemma FirstNamedAt(pins: seq<PinDescriptor>, name: string, i: nat)
    requires i < |pins| && pins[i].name == name
    requires forall j :: 0 <= j < i ==> pins[j].name != name
    ensures FirstNamed(pins, name) == Some(i)
  {
  }

  /** A board configuration whose pin_count is the length of its pin table. */
  predicate WellCounted(config: BoardConfig)
  {
    config.pinCount == |config.pins|
  }

  /**
   * The scan of bsp_get_pin_config over a board's table: the first entry
   * whose name equals `pinName`, or NULL when no entry has that name.
   */
  method ScanByName(config: BoardConfig, pinName: string) returns (r: Option<PinDescriptor>)
    requires WellCounted(config)
    ensures r == At(config.pins, FirstNamed(config.pins, pinName))
  {
    var i := 0;
    while i < config.pinCount
      invariant 0 <= i <= |config.pins|
      invariant forall j :: 0 <= j < i ==> config.pins[j].name != pinName
    {
      if config.pins[i].name == pinName {
        assert FirstNamed(config.pins, pinName) == Some(i);
        return Some(config.pins[i]);
      }
      i := i + 1;
    }
    return None;
  }

  /**
   * The scan of bsp_get_pin_config_by_function over a board's table: the
   * instance-th entry (0-based, in table order) whose function is `f`, or
   * NULL when fewer than instance + 1 entries have it. The uint8_t
   * found_count cannot wrap: it only grows while it is below `instance`.
   */
  method ScanByFunction(config: BoardConfig, f: PinFunction, instance: U8) returns (r: Option<PinDescriptor>)
    requires WellCounted(config)
    ensures r == At(config.pins, NthMatch(Tags(config.pins), f, instance))
  {
    ghost var tags := Tags(config.pins);
    ghost var target := NthMatch(tags, f, instance);
    ghost var rest: nat := instance;
    var foundCount: U8 := 0;
    var i := 0;
    assert tags[0..] == tags;
    while i < config.pinCount
      invariant 0 <= i <= |config.pins|
      invariant foundCount + rest == instance
      invariant target == Shift(NthMatch(tags[i..], f, rest), i)
    {
      NthMatchAdvance(tags, f, rest, i);
      if config.pins[i].pinFunction == f {
        if foundCount == instance {
          return Some(config.pins[i]);
        }
        foundCount := foundCount + 1;
        rest := rest - 1;
      }
      i := i + 1;
    }
    assert tags[i..] == [];
    return None;
  }
}
