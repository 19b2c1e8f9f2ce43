/** The gate stage as values: TIM1 as the native timer runs it, the board's calls on it, its
    update interrupt and the drive's trigger, each one step of a state machine. */
module GateStage {
  const PHASES := 3
  const ONE_TICK := 0x10000        // one tick in Q16.16
  const DTG_MAX := 127
  const DEADTIME_MIN_NS := 20
  const PS_PER_NS := 1000
  const PS_PER_COUNT := 4210       // 10^12 over 237.5 MHz, in whole picoseconds
  const CUBE_DTG := 19             // the dead time the timer starts with

  /** One number a phase. */
  type Triple = t: seq<nat> | |t| == PHASES witness [0, 0, 0]

  const ZERO: Triple := [0, 0, 0]

  /** The counter's last event: what may come next depends on it alone. */
  datatype Edge = Under | Over | Trig

  /** TIM1's registers, the native timer's shadow, the board's static state, and the drive
      glue's flag. */
  datatype Stage = Stage(
    // TIM1: the preloaded compares, the repetition register, flags and output enables
    ccr: Triple, rcr: nat, uie: bool, uif: bool, down: bool,
    moe: bool, bif: bool, bke: bool, outputs: bool, dtg: int, arr: nat,
    // the timer behind them: the compares in force, the repetition counter, the last event
    active: Triple, rep: nat, last: Edge,
    // the host's duties
    duty: Triple, want: Triple, residue: Triple, dither: bool,
    altA: Triple, altB: Triple, alternate: bool, altNext: bool,
    // the dead time
    skew: nat, skewUp: bool, deadtime: nat,
    half: bool, countdown: nat, armed: bool,
    // the drive's
    next: Triple, nextPending: bool, driveOwns: bool, open: bool, landed: bool,
    direct: bool, toDirect: bool,
    // board_drive's own flag
    owned: bool)

  /** What the drive's law asks for at its trigger: a triple (and a period, 0 to keep it),
      nothing, or a trip. */
  datatype Ask = Drive(period: nat, ticks: Triple) | Rest(period: nat) | Trip

  datatype Event =
    | SetAll(ticks: Triple)
    | Fine(fine: Triple)
    | Counted(ticks: Triple, periods: nat)
    | Alternate(a: Triple, b: Triple, periods: nat)
    | Arm
    | Disarm
    | Bypass(on: bool)
    | Clear
    | DeadTime(ns: nat)
    | Skew(counts: int)
    | Brk
    | Trigger(ask: Ask)
    | Overflow
    | Underflow

  /** Why a host call was refused. */
  datatype Why = Took | StageOff | DriveHolds | PastArr | Latched | PastLinear | UnderFloor

  // ---- small helpers ----

  function Min(x: nat, most: nat): nat { if x > most then most else x }

  /** The drive's triple held to the period. */
  function Clip(t: Triple, arr: nat): Triple { [Min(t[0], arr), Min(t[1], arr), Min(t[2], arr)] }

  predicate Within(t: Triple, limit: nat) { t[0] <= limit && t[1] <= limit && t[2] <= limit }

  function Scaled(t: Triple): Triple { [t[0] * ONE_TICK, t[1] * ONE_TICK, t[2] * ONE_TICK] }

  function Enabled(s: Stage): bool { s.armed && s.moe }

  function LeaveDirect(s: Stage): Stage { s.(rcr := 0, direct := false, toDirect := false) }

  function UpdateIrq(s: Stage, wanted: bool): Stage {
    if wanted then s.(uie := true) else s.(uie := false)
  }

  function FollowCompares(s: Stage): Stage { if s.open then s.(outputs := true, open := false) else s }

  function WithPeriod(s: Stage, period: nat): Stage { if period >= 64 then s.(arr := period) else s }

  // ---- the host's calls ----

  function DisarmF(s: Stage): Stage {
    s.(armed := false, dither := false, alternate := false, countdown := 0, driveOwns := false,
       nextPending := false, rcr := 0, direct := false, toDirect := false, uie := false,
       moe := false, ccr := ZERO, duty := ZERO)
  }

  function ArmWhy(s: Stage): Why { if s.bif && s.bke then Latched else Took }

  function ArmF(s: Stage): Stage {
    if ArmWhy(s) != Took then s
    else FollowCompares(s.(ccr := ZERO, duty := ZERO)).(moe := true, armed := true)
  }

  function ComparesWhy(s: Stage): Why {
    if !Enabled(s) then StageOff else if s.driveOwns then DriveHolds else Took
  }

  function FineWhy(s: Stage, fine: Triple): Why {
    if ComparesWhy(s) != Took then ComparesWhy(s)
    else if !Within(fine, s.arr * ONE_TICK) then PastArr
    else Took
  }

  function FineF(s: Stage, fine: Triple): Stage {
    if FineWhy(s, fine) != Took then s
    else FollowCompares(s.(want := fine, residue := ZERO, dither := true, alternate := false,
                           countdown := 0, uif := false, uie := true))
  }

  function SetAllWhy(s: Stage, ticks: Triple): Why {
    if ComparesWhy(s) != Took then ComparesWhy(s)
    else if !Within(ticks, s.arr) then PastArr
    else Took
  }

  function SetAllF(s: Stage, ticks: Triple): Stage {
    if SetAllWhy(s, ticks) != Took then s
    else FollowCompares(UpdateIrq(s.(dither := false, alternate := false, countdown := 0,
                                     want := Scaled(ticks), residue := ZERO, ccr := ticks,
                                     duty := ticks), s.skew != 0))
  }

  function CountedF(s: Stage, ticks: Triple, periods: nat): Stage {
    if SetAllWhy(s, ticks) == Took && periods != 0
    then SetAllF(s, ticks).(countdown := periods, uie := true)
    else SetAllF(s, ticks)
  }

  function AlternateWhy(s: Stage, a: Triple, b: Triple): Why {
    if ComparesWhy(s) != Took then ComparesWhy(s)
    else if !Within(a, s.arr) || !Within(b, s.arr) then PastArr
    else Took
  }

  function AlternateF(s: Stage, a: Triple, b: Triple, periods: nat): Stage {
    if AlternateWhy(s, a, b) != Took then s
    else FollowCompares(s.(dither := false, countdown := periods, altA := a, altB := b,
                           want := Scaled(a), residue := ZERO, duty := a, ccr := a,
                           altNext := true, alternate := true, uif := false, uie := true))
  }

  function BypassF(s: Stage, on: bool): Stage {
    if on then s.(bke := false, bif := false) else s.(bke := true)
  }

  // ---- the dead time ----

  /** Nanoseconds in DTG counts, rounded up. */
  function CountsFor(ns: nat): nat { (ns * PS_PER_NS + PS_PER_COUNT - 1) / PS_PER_COUNT }

  const FLOOR: nat := CountsFor(DEADTIME_MIN_NS)

  function DeadTimeCounts(ns: nat): nat { if CountsFor(ns) < FLOOR then FLOOR else CountsFor(ns) }

  function DeadTimeWhy(s: Stage, ns: nat): Why {
    if DeadTimeCounts(ns) + s.skew > DTG_MAX then PastLinear else Took
  }

  function DeadTimeF(s: Stage, ns: nat): Stage {
    if DeadTimeWhy(s, ns) != Took then s
    else s.(deadtime := DeadTimeCounts(ns), dtg := DeadTimeCounts(ns))
  }

  /** The dead time asked for, as the board reads it back. */
  function DeadTimeNs(s: Stage): nat { s.deadtime * PS_PER_COUNT / PS_PER_NS }

  function Size(counts: int): nat { if counts < 0 then -counts else counts }

  function SkewWhy(s: Stage, counts: int): Why {
    if s.deadtime < FLOOR + Size(counts) then UnderFloor
    else if s.deadtime + Size(counts) > DTG_MAX then PastLinear
    else Took
  }

  /** The drive's way of writing its triples follows the skew: landed with one, direct without. */
  function SkewMode(s: Stage): Stage {
    if !s.driveOwns then s
    else if s.skew != 0 then LeaveDirect(s)
    else if !s.direct then s.(toDirect := true)
    else s
  }

  predicate SkewWantsIrq(s: Stage) { s.skew != 0 || s.dither || (s.driveOwns && !s.direct) }

  function SkewIrq(s: Stage): Stage {
    UpdateIrq(if s.skew == 0 then s.(dtg := s.deadtime) else s, SkewWantsIrq(s))
  }

  function SkewF(s: Stage, counts: int): Stage {
    if SkewWhy(s, counts) != Took then s
    else SkewIrq(SkewMode(s.(skew := Size(counts), skewUp := counts >= 0)))
  }

  // ---- the drive ----

  function TakeCompares(s: Stage): Stage {
    s.(dither := false, alternate := false, countdown := 0, nextPending := false, landed := false,
       driveOwns := true, toDirect := s.skew == 0, uif := false, uie := true)
  }

  function LetGo(s: Stage): Stage {
    UpdateIrq(s.(outputs := false, open := true, ccr := ZERO, duty := ZERO, rcr := 0,
                 direct := false, toDirect := false, driveOwns := false, nextPending := false,
                 landed := false), s.skew != 0 || s.dither)
  }

  function SetNextF(s: Stage, ticks: Triple): Stage {
    var t := if s.landed then FollowCompares(s) else s;
    var c := Clip(ticks, s.arr);
    if t.direct then t.(next := c, ccr := c, duty := c)
    else t.(next := c, nextPending := true)
  }

  function OwnPwm(s: Stage): Stage { if s.owned then s else TakeCompares(s).(owned := true) }

  /** The drive's interrupt at its trigger. */
  function TriggerF(s: Stage, ask: Ask): Stage {
    var t := s.(last := Trig);
    if ask.Trip? then DisarmF(t).(owned := false)
    else if ask.Drive? && Enabled(t) then
      SetNextF(OwnPwm(WithPeriod(t, ask.period)), ask.ticks)
    else if t.owned then LetGo(WithPeriod(t, ask.period)).(owned := false)
    else t
  }

  // ---- the update interrupt ----

  /** One phase's sum: the fraction carried and the whole ticks it makes. */
  function Carry(want: nat, residue: nat): nat { residue + want % ONE_TICK }

  function DitherResidue(want: nat, residue: nat): nat {
    if Carry(want, residue) >= ONE_TICK then Carry(want, residue) - ONE_TICK else Carry(want, residue)
  }

  function DitherWhole(want: nat, residue: nat): nat {
    want / ONE_TICK + if Carry(want, residue) >= ONE_TICK then 1 else 0
  }

  function DitherDuty(want: Triple, residue: Triple, arr: nat): Triple {
    [Min(DitherWhole(want[0], residue[0]), arr), Min(DitherWhole(want[1], residue[1]), arr),
     Min(DitherWhole(want[2], residue[2]), arr)]
  }

  function DitherResidues(want: Triple, residue: Triple): Triple {
    [DitherResidue(want[0], residue[0]), DitherResidue(want[1], residue[1]),
     DitherResidue(want[2], residue[2])]
  }

  function DitherStep(s: Stage): Stage {
    if !s.dither then s
    else
      var d := DitherDuty(s.want, s.residue, s.arr);
      s.(residue := DitherResidues(s.want, s.residue), duty := d, ccr := d)
  }

  /** The hold's count after this update. */
  function HoldCounted(s: Stage): Stage {
    if s.countdown == 0 || s.half then s else s.(countdown := s.countdown - 1)
  }

  predicate HoldOut(s: Stage) { s.countdown == 1 && !s.half }

  function HoldExpired(s: Stage): Stage {
    var t := s.(alternate := false, dither := false, ccr := ZERO, duty := ZERO, want := ZERO,
                residue := ZERO);
    if s.skew == 0 then UpdateIrq(t, false) else t
  }

  function AlternateWrite(s: Stage): Stage {
    var t := if s.altNext then s.altB else s.altA;
    s.(ccr := t, duty := t, altNext := !s.altNext)
  }

  function LandNext(s: Stage): Stage {
    if !s.nextPending || s.down then s
    else s.(ccr := s.next, duty := s.next, nextPending := false, landed := true)
  }

  function EnterDirect(s: Stage): Stage {
    if !s.toDirect || s.down then s
    else s.(rcr := 1, direct := true, toDirect := false, uie := false)
  }

  /** This half-period's dead time, skewed one way and then the other. */
  function HalfDtg(s: Stage): int {
    if s.half == s.skewUp then s.deadtime + s.skew else s.deadtime - s.skew
  }

  function SkewWrite(s: Stage): Stage {
    if s.skew == 0 then s else s.(dtg := HalfDtg(s))
  }

  /** What the interrupt does to the compares, by who holds them. */
  function Compares(s: Stage): Stage {
    if s.alternate && s.down then AlternateWrite(s)
    else if s.driveOwns then EnterDirect(LandNext(s))
    else if !s.half then DitherStep(s)
    else s
  }

  function HoldPart(s: Stage): Stage {
    if HoldOut(s) then HoldExpired(HoldCounted(s)) else HoldCounted(s)
  }

  function Interrupt(s: Stage): Stage
  {
    if !s.uif then s
    else SkewWrite(Compares(HoldPart(s.(uif := false, half := !s.half))))
  }

  // ---- the timer ----

  /** The direction turned; the update only when the repetition counter is out. */
  function Turned(s: Stage, overflow: bool): Stage {
    s.(down := overflow, last := if overflow then Over else Under)
  }

  function Loaded(s: Stage): Stage { s.(rep := s.rcr, active := s.ccr, uif := true) }

  function Update(s: Stage, overflow: bool): Stage
  {
    var t := Turned(s, overflow);
    if t.rep != 0 then t.(rep := t.rep - 1)
    else if t.uie then Interrupt(Loaded(t))
    else Loaded(t)
  }

  // ---- steps and runs ----

  /** BKIN active: with the break enabled it latches and takes MOE down. */
  function BreakF(s: Stage): Stage { if s.bke then s.(bif := true, moe := false) else s }

  /** What the timer lets happen next: overflow, at most one trigger, underflow. */
  predicate Legal(s: Stage, e: Event) {
    match e
    case Overflow => s.last == Under
    case Underflow => s.last != Under
    case Trigger(_) => s.last == Over
    case _ => true
  }

  function Step(s: Stage, e: Event): Stage
  {
    match e
    case SetAll(t) => SetAllF(s, t)
    case Fine(f) => FineF(s, f)
    case Counted(t, n) => CountedF(s, t, n)
    case Alternate(a, b, n) => AlternateF(s, a, b, n)
    case Arm => ArmF(s)
    case Disarm => DisarmF(s)
    case Bypass(on) => BypassF(s, on)
    case Clear => s.(bif := false)
    case DeadTime(ns) => DeadTimeF(s, ns)
    case Skew(c) => SkewF(s, c)
    case Brk => BreakF(s)
    case Trigger(ask) => TriggerF(s, ask)
    case Overflow => Update(s, true)
    case Underflow => Update(s, false)
  }

  /** The stage as Board_PwmInit leaves it: RCR 0, the repetition counter still the 1 it was
      started with, the outputs enabled, everything else off. */
  predicate Initial(s: Stage) {
    && s.ccr == ZERO && s.duty == ZERO && s.rcr == 0 && s.rep == 1 && s.last == Under && !s.down
    && !s.uie && !s.moe && !s.bif && s.bke && s.outputs && !s.open && !s.armed && !s.half
    && !s.dither && !s.alternate && s.countdown == 0
    && !s.nextPending && !s.driveOwns && !s.landed && !s.direct && !s.toDirect && !s.owned
    && s.skew == 0 && s.deadtime == CUBE_DTG && s.dtg == CUBE_DTG && s.arr >= 64
    && s.want == ZERO && s.residue == ZERO
  }
}
