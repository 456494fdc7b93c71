/**
 How the desktop app splits the finished days of its usage counts into reports. The split is
 greedy, and no other split into neighbouring days that keeps the limits has fewer reports.
 */
module UsageBatches {

  const USAGE_MAX_DAYS_PER_BATCH: nat := 7

  const USAGE_REPORT_MAX_BYTES: nat := 32 * 1024

  /** A day in the form that is sent, with its JSON text, one element a byte. */
  datatype Day = Day(date: int, json: string)

  function Join(days: seq<Day>): string {
    if days == [] then ""
    else if |days| == 1 then days[0].json
    else Join(days[..|days| - 1]) + "," + days[|days| - 1].json
  }

  function BatchText(days: seq<Day>): string {
    "{\"days\":[" + Join(days) + "]}"
  }

  function BatchBytes(days: seq<Day>): nat {
    |BatchText(days)|
  }

  /** A day more adds its text, and a comma unless it is the only one. */
  lemma DayAddsBytes(days: seq<Day>, day: Day)
    ensures BatchBytes(days + [day]) == BatchBytes(days) + |day.json| + if days == [] then 0 else 1
    ensures BatchBytes([]) == 11
  {
    assert (days + [day])[..|days|] == days;
  }

  predicate WithinLimits(days: seq<Day>) {
    |days| <= USAGE_MAX_DAYS_PER_BATCH && BatchBytes(days) <= USAGE_REPORT_MAX_BYTES
  }

  /** What a batch may be: a day goes out alone when it is too large with any other. */
  predicate Allowed(batch: seq<Day>) {
    |batch| <= 1 || WithinLimits(batch)
  }

  function Flatten(batches: seq<seq<Day>>): seq<Day> {
    if batches == [] then [] else Flatten(batches[..|batches| - 1]) + batches[|batches| - 1]
  }

  ghost predicate Splits(batches: seq<seq<Day>>, days: seq<Day>) {
    Flatten(batches) == days && forall j :: 0 <= j < |batches| ==> Allowed(batches[j])
  }

  /** No batch could have taken the first day of the next one. */
  ghost predicate Filled(batches: seq<seq<Day>>) {
    && (forall j :: 0 <= j < |batches| ==> batches[j] != [])
    && forall j :: 0 < j < |batches| ==> !WithinLimits(batches[j - 1] + [batches[j][0]])
  }

  /** The day joins the last batch when that keeps within the limits. */
  function Added(batches: seq<seq<Day>>, day: Day): seq<seq<Day>> {
    var n := |batches| - 1;
    if batches != [] && |batches[n]| < USAGE_MAX_DAYS_PER_BATCH
        && BatchBytes(batches[n] + [day]) <= USAGE_REPORT_MAX_BYTES
    then batches[n := batches[n] + [day]]
    else batches + [[day]]
  }

  function BatchesOf(days: seq<Day>): seq<seq<Day>> {
    if days == [] then [] else Added(BatchesOf(days[..|days| - 1]), days[|days| - 1])
  }

  /** The batches keep every day, in order, each within the limits or a single day. */
  lemma {:induction false} BatchesSplit(days: seq<Day>)
    ensures Splits(BatchesOf(days), days) && Filled(BatchesOf(days))
  {
    hide Join, BatchText;
    if days != [] {
      BatchesSplit(days[..|days| - 1]);
      AddedSplits(BatchesOf(days[..|days| - 1]), days[..|days| - 1], days[|days| - 1]);
      assert days[..|days| - 1] + [days[|days| - 1]] == days;
    }
  }

  lemma AddedSplits(batches: seq<seq<Day>>, days: seq<Day>, day: Day)
    requires Splits(batches, days) && Filled(batches)
    ensures Splits(Added(batches, day), days + [day]) && Filled(Added(batches, day))
  {
    hide Join, BatchText;
    var n := |batches| - 1;
    assert (batches + [[day]])[..|batches|] == batches;
    if batches != [] {
      assert batches[n := batches[n] + [day]][..n] == batches[..n];
    }
  }

  /** The batches are as few as can be. */
  method DesktopUsageBatchesOf(days: seq<Day>) returns (batches: seq<seq<Day>>)
    ensures batches == BatchesOf(days) && Splits(batches, days)
    ensures forall other :: Splits(other, days) ==> |batches| <= |other|
  {
    hide Join, BatchText, Splits, Filled;
    batches := [];
    for i := 0 to |days|
      invariant batches == BatchesOf(days[..i])
    {
      var day := days[i];
      assert days[..i + 1][..i] == days[..i];
      var last := |batches| - 1;
      if batches != [] && |batches[last]| < USAGE_MAX_DAYS_PER_BATCH
          && BatchBytes(batches[last] + [day]) <= USAGE_REPORT_MAX_BYTES {
        batches := batches[last := batches[last] + [day]];
      } else {
        batches := batches + [[day]];
      }
    }
    assert days[..|days|] == days;
    BatchesSplit(days);
    forall other | Splits(other, days) ensures |batches| <= |other| {
      FilledIsFewest(batches, other, days);
    }
  }

  // ---------------------------------------------------------------------------------------------
  // A batch grows with every day

  lemma {:induction false} JoinGrows(days: seq<Day>, more: seq<Day>)
    ensures |Join(days)| <= |Join(days + more)|
  {
    if more == [] {
      assert days + more == days;
    } else {
      var n := |more| - 1;
      JoinGrows(days, more[..n]);
      assert (days + more)[..|days| + n] == days + more[..n];
    }
  }

  lemma {:induction false} JoinGrowsInFront(before: seq<Day>, days: seq<Day>)
    ensures |Join(days)| <= |Join(before + days)|
  {
    if days != [] {
      var n := |days| - 1;
      JoinGrowsInFront(before, days[..n]);
      assert (before + days)[..|before| + n] == before + days[..n];
    }
  }

  /** A run of days inside a batch within the limits is within them itself. */
  lemma PartWithinLimits(days: seq<Day>, from: nat, to: nat)
    requires from <= to <= |days| && WithinLimits(days)
    ensures WithinLimits(days[from..to])
  {
    JoinGrows(days[from..to], days[to..]);
    JoinGrowsInFront(days[..from], days[from..to] + days[to..]);
    assert days[..from] + (days[from..to] + days[to..]) == days;
  }

  // ---------------------------------------------------------------------------------------------
  // Why the greedy split is the shortest one

  /** How many days the first `k` batches hold. */
  ghost function EndOf(batches: seq<seq<Day>>, k: nat): nat
    requires k <= |batches|
  {
    |Flatten(batches[..k])|
  }

  lemma {:induction false} BatchIsSlice(batches: seq<seq<Day>>, k: nat)
    requires k < |batches|
    ensures EndOf(batches, k + 1) == EndOf(batches, k) + |batches[k]| <= |Flatten(batches)|
    ensures Flatten(batches)[EndOf(batches, k)..EndOf(batches, k + 1)] == batches[k]
  {
    var n := |batches| - 1;
    assert batches[..k + 1][..k] == batches[..k];
    if k == n {
      assert batches[..k + 1] == batches;
    } else {
      BatchIsSlice(batches[..n], k);
      assert batches[..n][..k] == batches[..k] && batches[..n][..k + 1] == batches[..k + 1];
      assert Flatten(batches)[..|Flatten(batches[..n])|] == Flatten(batches[..n]);
    }
  }

  /** After the same number of batches the filled split is at least as far. */
  lemma {:induction false} FilledStaysAhead(filled: seq<seq<Day>>, other: seq<seq<Day>>, days: seq<Day>, k: nat)
    requires Splits(filled, days) && Filled(filled) && Splits(other, days)
    requires k <= |filled| && k <= |other|
    ensures EndOf(other, k) <= EndOf(filled, k)
  {
    hide *;
    if k > 0 {
      FilledStaysAhead(filled, other, days, k - 1);
      NoOvertaking(filled, other, days, k - 1);
    } else {
      NoneAtStart(filled);
      NoneAtStart(other);
    }
  }

  lemma NoneAtStart(batches: seq<seq<Day>>)
    ensures EndOf(batches, 0) == 0
  {
  }

  lemma SliceOfSlice(days: seq<Day>, start: nat, stop: nat, from: nat, to: nat)
    requires start <= from <= to <= stop <= |days|
    ensures days[start..stop][from - start..to - start] == days[from..to]
  {
    var inner := days[start..stop][from - start..to - start];
    assert |inner| == to - from;
    assert forall k :: 0 <= k < |inner| ==> inner[k] == days[from + k];
  }

  /** A filled batch with the day after it cannot be part of an allowed batch. */
  lemma NotPartOfAllowed(batch: seq<Day>, next: Day, other: seq<Day>, days: seq<Day>, start: nat, from: nat, end: nat)
    requires start <= from <= end < start + |other| <= |days|
    requires other == days[start..start + |other|] && batch == days[from..end] && next == days[end]
    requires batch != [] && Allowed(other)
    ensures WithinLimits(batch + [next])
  {
    hide Join, BatchText, BatchBytes;
    assert |other| > 1;
    PartWithinLimits(other, from - start, end + 1 - start);
    SliceOfSlice(days, start, start + |other|, from, end + 1);
    assert days[from..end + 1] == days[from..end] + [days[end]];
  }

  lemma NoOvertaking(filled: seq<seq<Day>>, other: seq<seq<Day>>, days: seq<Day>, k: nat)
    requires Splits(filled, days) && Filled(filled) && Splits(other, days)
    requires k < |filled| && k < |other|
    requires EndOf(other, k) <= EndOf(filled, k)
    ensures EndOf(other, k + 1) <= EndOf(filled, k + 1)
  {
    hide Join, BatchText, BatchBytes, Flatten, WithinLimits, Allowed;
    BatchIsSlice(filled, k);
    BatchIsSlice(other, k);
    if k + 1 == |filled| {
      assert filled[..k + 1] == filled;
    } else if EndOf(filled, k + 1) < EndOf(other, k + 1) {
      BatchIsSlice(filled, k + 1);
      NotPartOfAllowed(filled[k], filled[k + 1][0], other[k], days, EndOf(other, k), EndOf(filled, k),
          EndOf(filled, k + 1));
    }
  }

  /** No split of the same days has fewer batches. */
  lemma FilledIsFewest(filled: seq<seq<Day>>, other: seq<seq<Day>>, days: seq<Day>)
    requires Splits(filled, days) && Filled(filled) && Splits(other, days)
    ensures |filled| <= |other|
  {
    if |other| < |filled| {
      FilledStaysAhead(filled, other, days, |other|);
      assert other[..|other|] == other;
      BatchIsSlice(filled, |other|);
    }
  }

  lemma SameEnds(one: seq<seq<Day>>, other: seq<seq<Day>>, days: seq<Day>, k: nat)
    requires 0 < k <= |one| && k <= |other|
    requires Splits(one, days) && Splits(other, days) && one[..k - 1] == other[..k - 1]
    requires EndOf(one, k) == EndOf(other, k)
    ensures one[k - 1] == other[k - 1]
  {
    hide Join, BatchText, BatchBytes, WithinLimits, Allowed;
    BatchIsSlice(one, k - 1);
    BatchIsSlice(other, k - 1);
  }

  /** Two filled splits of the same days are the same one, so the result is determined by its contract. */
  lemma {:induction false} FilledIsUnique(one: seq<seq<Day>>, other: seq<seq<Day>>, days: seq<Day>, k: nat)
    requires Splits(one, days) && Filled(one) && Splits(other, days) && Filled(other)
    requires k <= |one|
    ensures |one| == |other| && one[..k] == other[..k]
  {
    hide Join, BatchText, BatchBytes, Flatten, WithinLimits, Allowed, Splits, Filled;
    FilledIsFewest(one, other, days);
    FilledIsFewest(other, one, days);
    if k > 0 {
      FilledIsUnique(one, other, days, k - 1);
      FilledStaysAhead(one, other, days, k);
      FilledStaysAhead(other, one, days, k);
      BatchIsSlice(one, k - 1);
      BatchIsSlice(other, k - 1);
      SameEnds(one, other, days, k);
      assert one[..k] == one[..k - 1] + [one[k - 1]] && other[..k] == other[..k - 1] + [other[k - 1]];
    }
  }
}
