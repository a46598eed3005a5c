/** The per-position state machine of the history importer and the rows it publishes
    (windows_agent/worker/history_balance.py, second half). */
module PositionMachine {
  import opened Prelude
  import opened Ledger

  const VOLUME_TOLERANCE: real := 0.00000001

  datatype UnsafeReason =
    | OpeningUnavailable
    | IdentityUnavailable
    | InOutReversal
    | OpeningIncomplete
    | ExitVolumeIncomplete
    | Reopened
    | ExitIncoherent

  // ---------------------------------------------------------------- checks made before the machine runs

  ghost predicate HasOpening(rows: seq<Deal>, p: string) {
    exists i :: 0 <= i < |rows| && Belongs(rows[i], p) && IsOpenEntry(rows[i].entry)
  }

  ghost predicate AllIdentified(rows: seq<Deal>, p: string) {
    forall i | 0 <= i < |rows| && Belongs(rows[i], p) :: rows[i].ticket.Some?
  }

  ghost predicate HasReversal(rows: seq<Deal>, p: string) {
    exists i :: 0 <= i < |rows| && Belongs(rows[i], p) && rows[i].entry == TextInOut
  }

  predicate PositiveVolume(d: Deal) { d.volume.Some? && d.volume.value > 0.0 }

  predicate OpeningComplete(d: Deal) { PositiveVolume(d) && d.price.Some? && Economics(d).Some? }

  ghost predicate OpeningsComplete(rows: seq<Deal>, p: string) {
    && (forall i | 0 <= i < |rows| && Belongs(rows[i], p) && IsOpenEntry(rows[i].entry) :: OpeningComplete(rows[i]))
    && (forall i, j | 0 <= i < j < |rows| && Belongs(rows[i], p) && IsOpenEntry(rows[i].entry)
                      && Belongs(rows[j], p) && IsOpenEntry(rows[j].entry) :: rows[i].direction == rows[j].direction)
  }

  ghost predicate ExitsComplete(rows: seq<Deal>, p: string) {
    forall i | 0 <= i < |rows| && Belongs(rows[i], p) && IsExitEntry(rows[i].entry) :: PositiveVolume(rows[i])
  }

  /** The first check that fails, in the order the source makes them. */
  ghost function Objection(rows: seq<Deal>, p: string): Option<UnsafeReason> {
    if !HasOpening(rows, p) then Some(OpeningUnavailable)
    else if !AllIdentified(rows, p) then Some(IdentityUnavailable)
    else if HasReversal(rows, p) then Some(InOutReversal)
    else if !OpeningsComplete(rows, p) then Some(OpeningIncomplete)
    else if !ExitsComplete(rows, p) then Some(ExitVolumeIncomplete)
    else None
  }

  // ---------------------------------------------------------------- the machine

  datatype Machine = Running(volume: real, notional: real, closed: bool) | Stopped(reason: UnsafeReason)

  const FLAT := Running(0.0, 0.0, false)

  predicate IsFinalExit(volume: real, exit: real) {
    -VOLUME_TOLERANCE <= exit - volume <= VOLUME_TOLERANCE
  }

  /** One deal of the position. */
  function Advance(m: Machine, d: Deal): Machine {
    if m.Stopped? then m
    else if IsOpenEntry(d.entry) then
      if m.closed then Stopped(Reopened)
      else Running(m.volume + OrZero(d.volume), m.notional + OrZero(d.volume) * OrZero(d.price), false)
    else if !IsExitEntry(d.entry) then m
    else
      var exit := OrZero(d.volume);
      if m.closed || m.volume <= VOLUME_TOLERANCE || exit > m.volume + VOLUME_TOLERANCE then Stopped(ExitIncoherent)
      else if IsFinalExit(m.volume, exit) then Running(0.0, 0.0, true)
      else Running(m.volume - exit, (m.notional / m.volume) * (m.volume - exit), false)
  }

  /** The machine of position `p` after the first `n` rows; rows of other positions do not move it. */
  ghost function StateAt(rows: seq<Deal>, p: string, n: nat): (m: Machine)
    requires n <= |rows|
  {
    if n == 0 then FLAT
    else
      var m := StateAt(rows, p, n - 1);
      if Belongs(rows[n - 1], p) then Advance(m, rows[n - 1]) else m
  }

  /** Every opening and exit the machine will meet has a positive volume, and openings a price. */
  ghost predicate VolumesKnown(rows: seq<Deal>, p: string) {
    && (forall i | 0 <= i < |rows| && Belongs(rows[i], p) && IsOpenEntry(rows[i].entry) :: OpeningComplete(rows[i]))
    && ExitsComplete(rows, p)
  }

  lemma {:induction false} VolumeNotNegative(rows: seq<Deal>, p: string, n: nat)
    requires n <= |rows| && VolumesKnown(rows, p)
    ensures StateAt(rows, p, n).Running? ==> StateAt(rows, p, n).volume >= 0.0
  {
    if n > 0 { VolumeNotNegative(rows, p, n - 1); }
  }

  /** Why position `p` may not be projected, if so. */
  ghost function Verdict(rows: seq<Deal>, p: string): Option<UnsafeReason> {
    if Objection(rows, p).Some? then Objection(rows, p)
    else
      var m := StateAt(rows, p, |rows|);
      if m.Stopped? then Some(m.reason) else None
  }

  ghost predicate Safe(rows: seq<Deal>, p: string) { Verdict(rows, p).None? }

  lemma {:induction false} SafePrefix(rows: seq<Deal>, p: string, n: nat)
    requires Safe(rows, p) && n <= |rows|
    ensures StateAt(rows, p, n).Running?
    decreases |rows| - n
  {
    if n < |rows| { SafePrefix(rows, p, n + 1); }
  }

  // ---------------------------------------------------------------- conservation

  ghost function Opened(rows: seq<Deal>, p: string, n: nat): real
    requires n <= |rows|
  {
    if n == 0 then 0.0
    else Opened(rows, p, n - 1)
         + if Belongs(rows[n - 1], p) && IsOpenEntry(rows[n - 1].entry) then OrZero(rows[n - 1].volume) else 0.0
  }

  ghost function Exited(rows: seq<Deal>, p: string, n: nat): real
    requires n <= |rows|
  {
    if n == 0 then 0.0
    else Exited(rows, p, n - 1)
         + if Belongs(rows[n - 1], p) && IsExitEntry(rows[n - 1].entry) then OrZero(rows[n - 1].volume) else 0.0
  }

  /** At every prefix of a safe position, what was opened minus what was exited is the running volume;
      once it is closed, the two agree within 1e-8. */
  lemma {:induction false} VolumeConserved(rows: seq<Deal>, p: string, n: nat)
    requires Safe(rows, p) && n <= |rows|
    ensures StateAt(rows, p, n).Running?
    ensures !StateAt(rows, p, n).closed ==> StateAt(rows, p, n).volume == Opened(rows, p, n) - Exited(rows, p, n)
    ensures StateAt(rows, p, n).closed ==>
              -0.00000001 <= Opened(rows, p, n) - Exited(rows, p, n) <= 0.00000001
  {
    SafePrefix(rows, p, n);
    if n > 0 {
      VolumeConserved(rows, p, n - 1);
    }
  }

  // ---------------------------------------------------------------- safety without the machine

  /** Exit row `j` takes all that is left, up to 1e-8. */
  ghost predicate TakesTheRest(rows: seq<Deal>, p: string, j: nat) {
    && j < |rows| && Belongs(rows[j], p) && IsExitEntry(rows[j].entry)
    && -0.00000001 <= Opened(rows, p, j + 1) - Exited(rows, p, j + 1) <= 0.00000001
  }

  /** Some exit among the first `n` rows does. */
  ghost predicate SomethingTookTheRest(rows: seq<Deal>, p: string, n: nat) {
    n > 0 && (SomethingTookTheRest(rows, p, n - 1) || TakesTheRest(rows, p, n - 1))
  }

  /** A deal that neither opens nor exits fits anywhere. Any other fits when nothing has taken the rest before
      it and, if it exits, there is more than 1e-8 left and it takes at most 1e-8 too much. */
  predicate FitsIn(d: Deal, left: real, taken: bool) {
    IsOpenEntry(d.entry) || IsExitEntry(d.entry) ==>
      && !taken
      && (IsExitEntry(d.entry) ==> left > 0.00000001 && OrZero(d.volume) <= left + 0.00000001)
  }

  ghost predicate Fits(rows: seq<Deal>, p: string, i: nat)
    requires i < |rows|
  {
    FitsIn(rows[i], Opened(rows, p, i) - Exited(rows, p, i), SomethingTookTheRest(rows, p, i))
  }

  ghost predicate AllFit(rows: seq<Deal>, p: string, n: nat)
    requires n <= |rows|
  {
    n > 0 ==> AllFit(rows, p, n - 1) && (Belongs(rows[n - 1], p) ==> Fits(rows, p, n - 1))
  }

  lemma {:induction false} EachFits(rows: seq<Deal>, p: string, n: nat)
    requires n <= |rows|
    ensures AllFit(rows, p, n) <==> forall i: nat | i < n && Belongs(rows[i], p) :: Fits(rows, p, i)
  {
    if n > 0 { EachFits(rows, p, n - 1); }
  }

  /** The machine runs as long as everything fits, is closed once something has taken the rest, and holds what
      is left until then. */
  predicate InSums(m: Machine, fit: bool, left: real, taken: bool) {
    m.Running? == fit && (fit ==> m.closed == taken && (!taken ==> m.volume == left))
  }

  function LeftAfter(d: Deal, left: real): real {
    if IsOpenEntry(d.entry) then left + OrZero(d.volume)
    else if IsExitEntry(d.entry) then left - OrZero(d.volume)
    else left
  }

  lemma {:induction false} StepInSums(m: Machine, d: Deal, fit: bool, left: real, taken: bool)
    requires InSums(m, fit, left, taken)
    ensures InSums(Advance(m, d), fit && FitsIn(d, left, taken), LeftAfter(d, left),
                   taken || (IsExitEntry(d.entry) && -0.00000001 <= LeftAfter(d, left) <= 0.00000001))
  {
  }

  lemma {:induction false} OneMoreRow(rows: seq<Deal>, p: string, n: nat)
    requires n < |rows|
    ensures Opened(rows, p, n + 1) - Exited(rows, p, n + 1) ==
              var left := Opened(rows, p, n) - Exited(rows, p, n);
              if Belongs(rows[n], p) then LeftAfter(rows[n], left) else left
  {
  }

  lemma {:induction false} RunningIffAllFit(rows: seq<Deal>, p: string, n: nat)
    requires n <= |rows|
    ensures InSums(StateAt(rows, p, n), AllFit(rows, p, n), Opened(rows, p, n) - Exited(rows, p, n),
                   SomethingTookTheRest(rows, p, n))
  {
    if n > 0 {
      RunningIffAllFit(rows, p, n - 1);
      OneMoreRow(rows, p, n - 1);
      StepInSums(StateAt(rows, p, n - 1), rows[n - 1], AllFit(rows, p, n - 1),
                 Opened(rows, p, n - 1) - Exited(rows, p, n - 1), SomethingTookTheRest(rows, p, n - 1));
    }
  }

  /** The position has an opening; every row has a ticket and none is a reversal; openings and exits have a
      volume, openings a price and all four amounts too, and one direction. */
  ghost predicate RowsComplete(rows: seq<Deal>, p: string) {
    && (exists i :: 0 <= i < |rows| && Belongs(rows[i], p) && rows[i].entry in {Code0, TextIn})
    && (forall i | 0 <= i < |rows| && Belongs(rows[i], p) ::
          var d := rows[i];
          && d.ticket.Some? && d.entry != TextInOut
          && (d.entry != Unrecognised ==> d.volume.Some? && d.volume.value > 0.0)
          && (d.entry in {Code0, TextIn} ==>
                d.price.Some? && d.profit.Some? && d.commission.Some? && d.swap.Some? && d.fee.Some?))
    && (forall i, j | 0 <= i < j < |rows| && Belongs(rows[i], p) && rows[i].entry in {Code0, TextIn}
                      && Belongs(rows[j], p) && rows[j].entry in {Code0, TextIn} ::
          rows[i].direction == rows[j].direction)
  }

  lemma {:induction false} NoObjectionIff(rows: seq<Deal>, p: string)
    ensures Objection(rows, p).None? <==> RowsComplete(rows, p)
  {
  }

  /** Whether a position can be projected, from its rows and the two sums alone: its rows are complete, and every
      deal fits. */
  lemma {:induction false} SafeIff(rows: seq<Deal>, p: string)
    ensures Safe(rows, p) <==>
              RowsComplete(rows, p) && forall i: nat | i < |rows| && Belongs(rows[i], p) :: Fits(rows, p, i)
  {
    NoObjectionIff(rows, p);
    RunningIffAllFit(rows, p, |rows|);
    EachFits(rows, p, |rows|);
  }

  /** An exit of a safe position closes it exactly when the openings and exits up to it cancel. */
  lemma {:induction false} ClosesIffNothingLeft(rows: seq<Deal>, p: string, i: nat)
    requires Safe(rows, p) && i < |rows| && Belongs(rows[i], p) && IsExitEntry(rows[i].entry)
    ensures StateAt(rows, p, i + 1).Running?
    ensures StateAt(rows, p, i + 1).closed <==>
              -0.00000001 <= Opened(rows, p, i + 1) - Exited(rows, p, i + 1) <= 0.00000001
  {
    SafePrefix(rows, p, i + 1);
    RunningIffAllFit(rows, p, i);
    RunningIffAllFit(rows, p, i + 1);
  }

  // ---------------------------------------------------------------- prices

  ghost predicate OpeningPricesWithin(rows: seq<Deal>, p: string, n: nat, low: real, high: real)
    requires n <= |rows|
  {
    forall i | 0 <= i < n && Belongs(rows[i], p) && IsOpenEntry(rows[i].entry) ::
      rows[i].price.Some? && low <= rows[i].price.value <= high
  }

  ghost predicate NotionalWithin(m: Machine, low: real, high: real) {
    m.Running? ==> low * m.volume <= m.notional <= high * m.volume
  }

  lemma {:induction false} Scaled(low: real, x: real, high: real, volume: real)
    requires low <= x <= high && volume >= 0.0
    ensures low * volume <= x * volume <= high * volume
  {
  }

  lemma {:induction false} NotionalWithinStep(m: Machine, d: Deal, low: real, high: real)
    requires m.Running? && m.volume >= 0.0 && NotionalWithin(m, low, high)
    requires IsOpenEntry(d.entry) ==> OpeningComplete(d) && low <= d.price.value <= high
    ensures NotionalWithin(Advance(m, d), low, high)
  {
    if IsOpenEntry(d.entry) {
      Scaled(low, d.price.value, high, d.volume.value);
    } else if IsExitEntry(d.entry) && Advance(m, d).Running? && !IsFinalExit(m.volume, OrZero(d.volume)) {
      AverageWithin(m, low, high);
      var left := m.volume - OrZero(d.volume);
      Scaled(low, m.notional / m.volume, high, left);
    }
  }

  lemma {:induction false} AverageWithin(m: Machine, low: real, high: real)
    requires m.Running? && m.volume > 0.0 && NotionalWithin(m, low, high)
    ensures low <= m.notional / m.volume <= high
  {
    var average := m.notional / m.volume;
    assert average * m.volume == m.notional;
  }

  /** Whatever bounds hold for the opening prices seen so far hold for the average price, so it lies
      between the least and the greatest of them. */
  lemma {:induction false} AverageBetweenOpenings(rows: seq<Deal>, p: string, n: nat, low: real, high: real)
    requires Safe(rows, p) && n <= |rows| && OpeningPricesWithin(rows, p, n, low, high)
    ensures StateAt(rows, p, n).Running? && NotionalWithin(StateAt(rows, p, n), low, high)
    ensures StateAt(rows, p, n).volume > 0.0 ==>
              low <= StateAt(rows, p, n).notional / StateAt(rows, p, n).volume <= high
  {
    SafePrefix(rows, p, n);
    if n > 0 {
      SafePrefix(rows, p, n - 1);
      AverageBetweenOpenings(rows, p, n - 1, low, high);
      if Belongs(rows[n - 1], p) {
        VolumeNotNegative(rows, p, n - 1);
        NotionalWithinStep(StateAt(rows, p, n - 1), rows[n - 1], low, high);
      }
    }
    var m := StateAt(rows, p, n);
    if m.volume > 0.0 { AverageWithin(m, low, high); }
  }

  /** An exit that leaves something open leaves the average price as it was. */
  lemma {:induction false} PartialExitKeepsAverage(rows: seq<Deal>, p: string, n: nat)
    requires Safe(rows, p) && n < |rows| && Belongs(rows[n], p) && IsExitEntry(rows[n].entry)
    requires StateAt(rows, p, n + 1).Running? && !StateAt(rows, p, n + 1).closed
    ensures StateAt(rows, p, n).Running?
    ensures 0.00000001 < StateAt(rows, p, n + 1).volume < StateAt(rows, p, n).volume
    ensures StateAt(rows, p, n + 1).notional / StateAt(rows, p, n + 1).volume
         == StateAt(rows, p, n).notional / StateAt(rows, p, n).volume
  {
    var before, after := StateAt(rows, p, n), StateAt(rows, p, n + 1);
    SafePrefix(rows, p, n);
    var average := before.notional / before.volume;
    assert after.notional == average * after.volume;
  }
}
