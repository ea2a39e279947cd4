/** The two 30-day energy windows: the device profile's, which decays in proportion to the gap,
    and the network's, which only resets. */
module EnergyWindow {
  import opened Arithmetic
  import opened Protocol

  const THIRTY_DAYS: nat := 30 * 24 * 60 * 60

  datatype Record = Record(at: Time, energy: U64)

  function SaturatingMul(a: U128, b: U128): U128 {
    if a * b <= U128_MAX then a * b else U128_MAX
  }

  function Decay(window: U128, elapsed: nat): nat
    requires elapsed <= THIRTY_DAYS
  {
    SaturatingMul(window, elapsed) / THIRTY_DAYS
  }

  /** `update_energy_window_u128` of the profile program. */
  function Slide(window: U128, last: Time, now: Time, energy: U128): U128 {
    if now <= last then AddOrMax(window, energy)
    else if THIRTY_DAYS <= now - last then energy
    else AddOrMax(SatSub(window, Decay(window, now - last)), energy)
  }

  /** The window after a run of records, oldest first. */
  function Window(window: U128, last: Time, records: seq<Record>): U128
    decreases records
  {
    if records == [] then window
    else Window(Slide(window, last, records[0].at, records[0].energy), records[0].at, records[1..])
  }

  function Total(records: seq<Record>): nat {
    if records == [] then 0 else records[0].energy + Total(records[1..])
  }

  ghost predicate Ordered(last: Time, records: seq<Record>)
    decreases records
  {
    records != [] ==> last <= records[0].at && Ordered(records[0].at, records[1..])
  }

  /** The profile account of the device window. */
  class EnergyProfile {
    var deviceEnergy30d: U128
    var updatedAt: Time

    constructor (now: Time)
      ensures deviceEnergy30d == 0 && updatedAt == now
    {
      deviceEnergy30d, updatedAt := 0, now;
    }

    /** `record_production_inner`, which both entry points share. */
    method RecordProduction(energy: U64, at: Time)
      modifies this
      ensures deviceEnergy30d == Slide(old(deviceEnergy30d), old(updatedAt), at, energy)
      ensures updatedAt == at
    {
      var elapsed := at - updatedAt;
      if elapsed <= 0 {
        deviceEnergy30d := AddOrMax(deviceEnergy30d, energy);
      } else if elapsed >= THIRTY_DAYS {
        deviceEnergy30d := energy;
      } else {
        var decay := SaturatingMul(deviceEnergy30d, elapsed) / THIRTY_DAYS;
        var remaining := SatSub(deviceEnergy30d, decay);
        deviceEnergy30d := AddOrMax(remaining, energy);
      }
      updatedAt := at;
    }
  }

  /** What a record does to a window: added where time has not moved on, alone after thirty days, and in between
      added to the part of the window that the gap leaves, rounded up to a watt-hour. */
  lemma {:induction false} SlideBracket(window: U128, last: Time, now: Time, energy: U128)
    requires window + energy <= U128_MAX
    ensures now <= last ==> Slide(window, last, now, energy) == window + energy
    ensures last + 2_592_000 <= now ==> Slide(window, last, now, energy) == energy
    ensures last < now < last + 2_592_000 && window * (now - last) <= U128_MAX ==>
              var left := Slide(window, last, now, energy) - energy;
              window * (2_592_000 - (now - last)) <= left * 2_592_000 < window * (2_592_000 - (now - last)) + 2_592_000
  {
    if last < now < last + 2_592_000 {
      DecayBound(window, now - last);
      RemainsBracket(window, now - last);
    }
  }

  // ------------------------------------------------------------- bounds and forgetting

  /** Whatever the order of the times, a window never exceeds what was recorded into it. */
  lemma {:induction false} WindowAtMostRecorded(window: U128, last: Time, records: seq<Record>)
    ensures Window(window, last, records) <= window + Total(records)
    decreases records
  {
    if records == [] {
    } else {
      WindowAtMostRecorded(Slide(window, last, records[0].at, records[0].energy), records[0].at, records[1..]);
    }
  }

  lemma {:induction false} WindowAppend(window: U128, last: Time, first: seq<Record>, rest: seq<Record>)
    ensures Window(window, last, first + rest)
         == Window(Window(window, last, first), LastTime(last, first), rest)
    decreases first
  {
    if first == [] {
      assert first + rest == rest;
    } else {
      assert (first + rest)[1..] == first[1..] + rest;
      WindowAppend(Slide(window, last, first[0].at, first[0].energy), first[0].at, first[1..], rest);
    }
  }

  function LastTime(last: Time, records: seq<Record>): Time {
    if records == [] then last else records[|records| - 1].at
  }

  /** A silence of thirty days or more forgets everything before it. */
  lemma {:induction false} SilenceForgets(window: U128, last: Time, before: seq<Record>, after: seq<Record>)
    requires after != [] && THIRTY_DAYS <= after[0].at - LastTime(last, before)
    ensures Window(window, last, before + after) == Window(after[0].energy, after[0].at, after[1..])
    ensures Window(window, last, before + after) <= Total(after)
  {
    WindowAppend(window, last, before, after);
    WindowAtMostRecorded(after[0].energy, after[0].at, after[1..]);
  }

  // ------------------------------------------------------------- splitting a gap

  /** A gap of less than thirty days whose decay product fits; a longer one computes no product. */
  predicate DecayFits(window: U128, gap: int) {
    0 < gap < THIRTY_DAYS ==> window * gap <= U128_MAX
  }

  /** Every window below 2^106 decays without saturation, whatever the gap. */
  lemma {:induction false} SmallWindowFits(window: U128, gap: int)
    requires window < 0x400_0000_0000_0000_0000_0000_0000
    ensures DecayFits(window, gap)
  {
    if 0 < gap < THIRTY_DAYS {
      MulMono(window, gap, 0x400_0000_0000_0000_0000_0000_0000, THIRTY_DAYS);
    }
  }

  /** Saturation only ever makes the decay smaller. */
  lemma {:induction false} DecayBound(window: U128, elapsed: nat)
    requires elapsed <= THIRTY_DAYS
    ensures Decay(window, elapsed) <= window * elapsed / THIRTY_DAYS <= window
    ensures window * elapsed <= U128_MAX ==> Decay(window, elapsed) == window * elapsed / THIRTY_DAYS
    ensures U128_MAX < window * elapsed ==> Decay(window, elapsed) == U128_MAX / THIRTY_DAYS
  {
    MulMono(window, elapsed, window, THIRTY_DAYS);
    DivAtMost(window * elapsed, THIRTY_DAYS, window);
    DivMono(SaturatingMul(window, elapsed), window * elapsed, THIRTY_DAYS);
  }

  /** What is left after the decay rounds up: the least number at or above the exact share. */
  lemma {:induction false} RemainsBracket(window: nat, elapsed: nat)
    requires elapsed <= THIRTY_DAYS
    ensures var left := window - window * elapsed / THIRTY_DAYS;
            window * (THIRTY_DAYS - elapsed) <= left * THIRTY_DAYS < window * (THIRTY_DAYS - elapsed) + THIRTY_DAYS
  {
    DivBracket(window * elapsed, THIRTY_DAYS);
    MulDistributes(THIRTY_DAYS - elapsed, elapsed, window);
  }

  lemma {:induction false} LeftMonotone(small: nat, large: nat, elapsed: nat)
    requires small <= large && elapsed <= THIRTY_DAYS
    ensures small - small * elapsed / THIRTY_DAYS <= large - large * elapsed / THIRTY_DAYS
  {
    var left := large - large * elapsed / THIRTY_DAYS;
    RemainsBracket(small, elapsed);
    RemainsBracket(large, elapsed);
    MulMono(small, THIRTY_DAYS - elapsed, large, THIRTY_DAYS - elapsed);
  }

  /** The product form of "two decays leave at least what one longer decay leaves". */
  lemma {:induction false} SplitProduct(w: nat, a: nat, b: nat, d: nat, left: nat)
    requires a <= d && b <= d && a + b <= d
    requires w * (d - a) <= left * d
    ensures w * (d - a - b) * d <= left * (d - b) * d
  {
    assert (d - a) * (d - b) == d * (d - a - b) + a * b;
    assert w * (d - a) * (d - b) <= left * d * (d - b) by { MulMono(w * (d - a), d - b, left * d, d - b); }
    Regroup(w, d - a, d - b);
    Regroup2(w, d, d - a - b, a * b);
    Regroup3(left, d, d - b);
  }

  lemma {:induction false} Regroup(w: nat, p: nat, q: nat)
    ensures w * p * q == w * (p * q)
  {
  }

  lemma {:induction false} Regroup2(w: nat, d: nat, r: nat, extra: nat)
    ensures w * r * d <= w * (d * r + extra)
  {
    assert w * r * d == w * (d * r);
    MulMono(w, d * r, w, d * r + extra);
  }

  lemma {:induction false} Regroup3(left: nat, d: nat, q: nat)
    ensures left * d * q == left * q * d
  {
  }

  /** Two decays over the halves of a gap leave at least what one decay over the whole leaves. */
  lemma {:induction false} TwoDecaysLeaveMore(w: nat, a: nat, b: nat)
    requires a + b <= THIRTY_DAYS
    ensures var left := w - w * a / THIRTY_DAYS;
            && 0 <= left
            && w - w * (a + b) / THIRTY_DAYS <= left - left * b / THIRTY_DAYS
  {
    RemainsBracket(w, a);
    var left := w - w * a / THIRTY_DAYS;
    SplitProduct(w, a, b, THIRTY_DAYS, left);
    RemainsBracket(left, b);
    RemainsBracket(w, a + b);
  }

  /** Where the whole gap's decay product fits, a record of no energy in its middle never lowers the window
      after it. */
  lemma {:induction false} MiddleRecordKeeps(window: U128, t0: Time, t1: Time, t2: Time, energy: U128)
    requires DecayFits(window, t2 - t0) && t0 <= t1 <= t2
    ensures Slide(window, t0, t2, energy) <= Slide(Slide(window, t0, t1, 0), t1, t2, energy)
  {
    var a, b := t1 - t0, t2 - t1;
    if 0 < a && 0 < b && a + b < THIRTY_DAYS {
      MulMono(window, a, window, a + b);
      DecayBound(window, a);
      DecayBound(window, a + b);
      MulMono(window - Decay(window, a), b, window, a + b);
      DecayBound(window - Decay(window, a), b);
      TwoDecaysLeaveMore(window, a, b);
    }
  }

  /** More energy in the window now is never less later: where the decay saturates it takes even less away. */
  lemma {:induction false} WindowMonotone(small: U128, large: U128, last: Time, records: seq<Record>)
    requires small <= large
    ensures Window(small, last, records) <= Window(large, last, records)
    decreases records
  {
    if records == [] {
    } else {
      SlideMonotone(small, large, last, records[0].at, records[0].energy);
      WindowMonotone(Slide(small, last, records[0].at, records[0].energy),
                     Slide(large, last, records[0].at, records[0].energy), records[0].at, records[1..]);
    }
  }

  lemma {:induction false} SlideMonotone(small: U128, large: U128, last: Time, now: Time, energy: U128)
    requires small <= large
    ensures Slide(small, last, now, energy) <= Slide(large, last, now, energy)
  {
    if last < now && now - last < THIRTY_DAYS {
      var elapsed := now - last;
      DecayBound(small, elapsed);
      DecayBound(large, elapsed);
      LeftMonotone(small, large, elapsed);
      MulMono(small, elapsed, large, elapsed);
    }
  }

  /** The same over whole runs: a record of no energy, wherever it falls, never lowers the final window, if
      the decay product of the gap it falls into fits. */
  lemma {:induction false} EmptyRecordNeverLowers(window: U128, last: Time, before: seq<Record>, at: Time, after: seq<Record>)
    requires Ordered(last, before + [Record(at, 0)] + after)
    requires after != [] ==> DecayFits(Window(window, last, before), after[0].at - LastTime(last, before))
    ensures after != [] ==>
      Window(window, last, before + after) <= Window(window, last, before + [Record(at, 0)] + after)
  {
    if after != [] {
      var w, t0, empty := Window(window, last, before), LastTime(last, before), Record(at, 0);
      WindowAppend(window, last, before, after);
      assert before + [empty] + after == before + ([empty] + after);
      WindowAppend(window, last, before, [empty] + after);
      assert ([empty] + after)[1..] == after;
      OrderedTail(last, before, [empty] + after);
      var head := after[0];
      MiddleRecordKeeps(w, t0, at, head.at, head.energy);
      WindowMonotone(Slide(w, t0, head.at, head.energy), Slide(Slide(w, t0, at, 0), at, head.at, head.energy),
                     head.at, after[1..]);
    }
  }

  lemma {:induction false} OrderedTail(last: Time, first: seq<Record>, rest: seq<Record>)
    requires Ordered(last, first + rest)
    ensures Ordered(LastTime(last, first), rest)
    decreases first
  {
    if first == [] {
      assert first + rest == rest;
    } else {
      assert (first + rest)[1..] == first[1..] + rest;
      OrderedTail(first[0].at, first[1..], rest);
    }
  }

  /** Where the decay product saturates the property fails: the mid-gap record costs a whole extra decay. */
  lemma {:induction false} SaturatedDecayLowers()
    ensures Slide(Slide(U128_MAX, 0, 10, 0), 10, 20, 0) < Slide(U128_MAX, 0, 20, 0)
  {
  }

  // ------------------------------------------------------------- the network window

  /** `update_energy_window_u128` of the mint program: no decay, only the reset. */
  function Accumulate(window: U128, last: Time, now: Time, energy: U128): U128 {
    if last == 0 || THIRTY_DAYS <= now - last then energy else AddOrMax(window, energy)
  }

  function NetworkWindow(window: U128, last: Time, records: seq<Record>): U128
    decreases records
  {
    if records == [] then window
    else NetworkWindow(Accumulate(window, last, records[0].at, records[0].energy), records[0].at, records[1..])
  }

  lemma {:induction false} WindowSnoc(window: U128, last: Time, records: seq<Record>, r: Record)
    ensures Window(window, last, records + [r]) == Slide(Window(window, last, records), LastTime(last, records), r.at, r.energy)
    ensures LastTime(last, records + [r]) == r.at
  {
    WindowAppend(window, last, records, [r]);
    assert [r][1..] == [];
  }

  lemma {:induction false} NetworkSnoc(window: U128, last: Time, records: seq<Record>, r: Record)
    ensures NetworkWindow(window, last, records + [r])
         == Accumulate(NetworkWindow(window, last, records), LastTime(last, records), r.at, r.energy)
    decreases records
  {
    if records == [] {
      assert [] + [r] == [r];
    } else {
      assert (records + [r])[1..] == records[1..] + [r];
      NetworkSnoc(Accumulate(window, last, records[0].at, records[0].energy), records[0].at, records[1..], r);
    }
  }

  /** No silence of thirty days before any record of the run. */
  ghost predicate Busy(last: Time, records: seq<Record>)
    decreases records
  {
    records != [] ==> last != 0 && records[0].at - last < THIRTY_DAYS && Busy(records[0].at, records[1..])
  }

  /** A record starts the network's window afresh exactly at its first update or after thirty days. */
  lemma {:induction false} AccumulateIs(window: U128, last: Time, now: Time, energy: U128)
    ensures last == 0 || last + 2_592_000 <= now ==> Accumulate(window, last, now, energy) == energy
    ensures last != 0 && now < last + 2_592_000 ==> Accumulate(window, last, now, energy) == Min(window + energy, U128_MAX)
  {
  }

  /** While the network never falls silent its "30-day" window forgets nothing: it is the sum of all records. */
  lemma {:induction false} BusyWindowIsTheSum(window: U128, last: Time, records: seq<Record>)
    requires Busy(last, records)
    ensures NetworkWindow(window, last, records) == if window + Total(records) <= U128_MAX then window + Total(records) else U128_MAX
    decreases records
  {
    if records == [] {
    } else {
      BusyWindowIsTheSum(Accumulate(window, last, records[0].at, records[0].energy), records[0].at, records[1..]);
    }
  }

  /** On the same records the network window is at least the decaying one, over every ordered run
      of readings after time zero, which the program takes for "never updated". */
  lemma {:induction false} NetworkAtLeastDevice(device: U128, network: U128, last: Time, records: seq<Record>)
    requires device <= network && Ordered(last, records)
    requires 0 < last || (device == 0 && (records != [] ==> 0 < records[0].at))
    ensures Window(device, last, records) <= NetworkWindow(network, last, records)
    decreases records
  {
    if records == [] {
    } else {
      var r := records[0];
      if last < r.at && r.at - last < THIRTY_DAYS {
        DivShrinks(SaturatingMul(device, r.at - last), THIRTY_DAYS);
      }
      NetworkAtLeastDevice(Slide(device, last, r.at, r.energy), Accumulate(network, last, r.at, r.energy), r.at, records[1..]);
    }
  }
}
