/**
 * The parameter, program and MIDI-program tables: clamping, counting,
 * first-match lookups and the routing of a native-index write.
 */
module Parameters {
  import opened Wrappers
  import opened CarlaTypes

  /**
   * The clamp every setter of the base class writes out by hand: below `lo`
   * gives `lo`, otherwise above `hi` gives `hi`, otherwise the value itself.
   */
  function Clamp(value: real, lo: real, hi: real): (r: real)
    ensures lo <= hi ==> lo <= r <= hi
    ensures lo <= value <= hi ==> r == value
    ensures value < lo ==> r == lo
    ensures lo <= value && hi < value ==> r == hi
  {
    if value < lo then lo else if value > hi then hi else value
  }

  /**
   * `fix_parameter_value`: the value clamped into the parameter's range. The
   * source also stores this result back into its by-reference argument; a
   * caller here assigns the result to its own variable.
   */
  function FixParameterValue(value: real, ranges: ParameterRanges): (r: real)
    ensures ranges.min <= ranges.max ==> ranges.min <= r <= ranges.max
    ensures ranges.min <= value <= ranges.max ==> r == value
    ensures value < ranges.min ==> r == ranges.min
    ensures ranges.min <= value && ranges.max < value ==> r == ranges.max
  {
    Clamp(value, ranges.min, ranges.max)
  }

  /** Clamping a clamped value changes nothing, for any well-formed range. */
  lemma FixParameterValueIdempotent(value: real, ranges: ParameterRanges)
    requires ranges.min <= ranges.max
    ensures FixParameterValue(FixParameterValue(value, ranges), ranges) == FixParameterValue(value, ranges)
  {
  }

  /**
   * Without `min <= max` the clamp is not idempotent: a value below an
   * inverted range is first raised to `min`, which is then above `max`.
   */
  lemma FixParameterValueInvertedRange()
    ensures var ranges := ParameterRanges(0.0, 1.0, 0.0, 0.0, 0.0, 0.0);
            FixParameterValue(-1.0, ranges) == 1.0 &&
            FixParameterValue(FixParameterValue(-1.0, ranges), ranges) == 0.0
  {
  }

  /** `abs_d` */
  function AbsD(value: real): (r: real)
    ensures 0.0 <= r
    ensures r == value || r == -value
  {
    if value < 0.0 then -value else value
  }

  /** The first parameter whose native index is `rindex`. */
  function FindByRindex(params: seq<ParameterData>, rindex: int): (r: Option<nat>)
    ensures r.Some? ==> r.value < |params| && params[r.value].rindex == rindex
    ensures r.Some? ==> forall j :: 0 <= j < r.value ==> params[j].rindex != rindex
    ensures r.None? <==> forall j :: 0 <= j < |params| ==> params[j].rindex != rindex
  {
    FirstMatch(params, (d: ParameterData) => d.rindex == rindex)
  }

  /** The first MIDI program whose (bank, program) pair is the given one. */
  function FindMidiProgram(progs: seq<MidiProgram>, bank: nat, program: nat): (r: Option<nat>)
    ensures r.Some? ==> r.value < |progs| && progs[r.value].bank == bank && progs[r.value].program == program
    ensures r.Some? ==> forall j :: 0 <= j < r.value ==> !(progs[j].bank == bank && progs[j].program == program)
    ensures r.None? <==> forall j :: 0 <= j < |progs| ==> !(progs[j].bank == bank && progs[j].program == program)
  {
    FirstMatch(progs, (m: MidiProgram) => m.bank == bank && m.program == program)
  }

  /** Number of parameters of kind `t`. */
  function CountOfType(params: seq<ParameterData>, t: ParameterType): (n: nat)
    ensures n <= |params|
  {
    if |params| == 0 then 0
    else CountOfType(params[..|params| - 1], t) + (if params[|params| - 1].kind == t then 1 else 0)
  }

  /** Inputs and outputs are disjoint kinds, so together they never exceed the table. */
  lemma {:induction false} InputsAndOutputsBounded(params: seq<ParameterData>)
    ensures CountOfType(params, ParameterInput) + CountOfType(params, ParameterOutput) <= |params|
  {
    if |params| > 0 {
      InputsAndOutputsBounded(params[..|params| - 1]);
    }
  }

  /** A table made only of inputs counts each of its rows as an input and none as an output. */
  lemma {:induction false} CountAllInputs(params: seq<ParameterData>)
    requires forall j :: 0 <= j < |params| ==> params[j].kind == ParameterInput
    ensures CountOfType(params, ParameterInput) == |params|
    ensures CountOfType(params, ParameterOutput) == 0
  {
    if |params| > 0 {
      CountAllInputs(params[..|params| - 1]);
    }
  }

  /**
   * A program switch: every parameter's default becomes its current value, and
   * nothing else in its range changes.
   */
  function Resnapshot(ranges: seq<ParameterRanges>, current: nat -> real): (r: seq<ParameterRanges>)
    ensures |r| == |ranges|
    ensures forall j :: 0 <= j < |r| ==> r[j].def == current(j)
    ensures forall j :: 0 <= j < |r| ==>
              r[j].min == ranges[j].min && r[j].max == ranges[j].max && r[j].step == ranges[j].step &&
              r[j].stepSmall == ranges[j].stepSmall && r[j].stepLarge == ranges[j].stepLarge
  {
    seq(|ranges|, j requires 0 <= j < |ranges| => ranges[j].(def := current(j)))
  }

  /** Where `set_parameter_value_rindex` sends a value. */
  datatype Route =
    | ToActive
    | ToDryWet
    | ToVolume
    | ToBalanceLeft
    | ToBalanceRight
    | ToParameter(paramId: nat)
    | Unrouted

  /**
   * The routing `set_parameter_value_rindex` performs, as written: a bridged
   * instance sends the reserved indices of active, dry/wet, volume and
   * balance-left to their dedicated setters; every other index goes to the first
   * parameter with that native index, or nowhere. The fifth reserved test
   * repeats the balance-left one, so balance-right is never a destination.
   */
  function RindexRoute(isBridge: bool, params: seq<ParameterData>, rindex: int): (r: Route)
    ensures r != ToBalanceRight
    ensures isBridge && rindex == PARAMETER_ACTIVE ==> r == ToActive
    ensures isBridge && rindex == PARAMETER_DRYWET ==> r == ToDryWet
    ensures isBridge && rindex == PARAMETER_VOLUME ==> r == ToVolume
    ensures isBridge && rindex == PARAMETER_BALANCE_LEFT ==> r == ToBalanceLeft
    ensures !(isBridge && rindex in {PARAMETER_ACTIVE, PARAMETER_DRYWET, PARAMETER_VOLUME, PARAMETER_BALANCE_LEFT}) ==>
              (r.ToParameter? || r == Unrouted)
    ensures r.ToParameter? ==> r.paramId < |params| && params[r.paramId].rindex == rindex
    ensures r.ToParameter? ==> forall j :: 0 <= j < r.paramId ==> params[j].rindex != rindex
    ensures r == Unrouted ==> forall j :: 0 <= j < |params| ==> params[j].rindex != rindex
  {
    if isBridge && rindex == PARAMETER_ACTIVE then ToActive
    else if isBridge && rindex == PARAMETER_DRYWET then ToDryWet
    else if isBridge && rindex == PARAMETER_VOLUME then ToVolume
    else if isBridge && rindex == PARAMETER_BALANCE_LEFT then ToBalanceLeft
    else if isBridge && rindex == PARAMETER_BALANCE_LEFT then ToBalanceRight
    else match FindByRindex(params, rindex)
      case Some(i) => ToParameter(i)
      case None => Unrouted
  }

  /**
   * The defect made concrete: a bridged instance without a parameter whose
   * native index is the reserved balance-right one drops a balance-right write.
   */
  lemma BalanceRightDropped(params: seq<ParameterData>)
    requires forall j :: 0 <= j < |params| ==> params[j].rindex != PARAMETER_BALANCE_RIGHT
    ensures RindexRoute(true, params, PARAMETER_BALANCE_RIGHT) == Unrouted
  {
  }

  /**
   * The routing with the fifth reserved test reading balance-right: a bridged
   * instance's balance-right index reaches the balance-right setter, and every
   * other input is routed as before.
   */
  function IntendedRindexRoute(isBridge: bool, params: seq<ParameterData>, rindex: int): (r: Route)
    ensures isBridge && rindex == PARAMETER_BALANCE_RIGHT ==> r == ToBalanceRight
    ensures !(isBridge && rindex == PARAMETER_BALANCE_RIGHT) ==> r == RindexRoute(isBridge, params, rindex)
  {
    if isBridge && rindex == PARAMETER_ACTIVE then ToActive
    else if isBridge && rindex == PARAMETER_DRYWET then ToDryWet
    else if isBridge && rindex == PARAMETER_VOLUME then ToVolume
    else if isBridge && rindex == PARAMETER_BALANCE_LEFT then ToBalanceLeft
    else if isBridge && rindex == PARAMETER_BALANCE_RIGHT then ToBalanceRight
    else match FindByRindex(params, rindex)
      case Some(i) => ToParameter(i)
      case None => Unrouted
  }

  /** Under the intended routing every reserved index of a bridged instance has its own setter. */
  lemma IntendedRouteCoversReserved(params: seq<ParameterData>)
    ensures IntendedRindexRoute(true, params, PARAMETER_ACTIVE) == ToActive
    ensures IntendedRindexRoute(true, params, PARAMETER_DRYWET) == ToDryWet
    ensures IntendedRindexRoute(true, params, PARAMETER_VOLUME) == ToVolume
    ensures IntendedRindexRoute(true, params, PARAMETER_BALANCE_LEFT) == ToBalanceLeft
    ensures IntendedRindexRoute(true, params, PARAMETER_BALANCE_RIGHT) == ToBalanceRight
  {
  }
}
