/** When the next maintenance is, and how many witnesses the stake asks for. */
module Maintenance {
  import opened Arithmetic

  // ----- time --------------------------------------------------------------------------------------

  /** After the first block, the next multiple of the interval; otherwise so many intervals on as it takes. */
  function NextTime(next: nat, now: nat, interval: nat, first: bool): nat
    requires interval > 0
  {
    if next > now then next
    else if first then (now / interval + 1) * interval
    else next + ((now - next) / interval + 1) * interval
  }

  /** It is in the future, and no earlier time on the same grid is. */
  lemma NextTimeLeast(next: nat, now: nat, interval: nat, k: nat)
    requires interval > 0 && next <= now
    ensures NextTime(next, now, interval, false) > now
    ensures next + k * interval > now <==> next + k * interval >= NextTime(next, now, interval, false)
  {
    var y := (now - next) / interval;
    assert y * interval <= now - next < (y + 1) * interval;
    if k <= y { MulLess(k, y, interval); } else { MulLess(y + 1, k, interval); }
  }

  lemma FirstTimeLeast(next: nat, now: nat, interval: nat, k: nat)
    requires interval > 0 && next <= now
    ensures NextTime(next, now, interval, true) > now
    ensures k * interval > now <==> k * interval >= NextTime(next, now, interval, true)
  {
    var y := now / interval;
    assert y * interval <= now < (y + 1) * interval;
    if k <= y { MulLess(k, y, interval); } else { MulLess(y + 1, k, interval); }
  }

  // ----- how many ----------------------------------------------------------------------------------

  /** Stake behind the first n entries of a histogram, but for the entry of those who abstain. */
  function Tally(histogram: seq<nat>, n: nat): nat
    requires n < |histogram|
    decreases n
  {
    if n == 0 then 0 else Tally(histogram, n - 1) + histogram[n]
  }

  /** Whoever votes for n or fewer has more than half of the stake, whoever votes for fewer has not. */
  predicate IsMedian(histogram: seq<nat>, n: nat, half: nat) {
    && 0 < n < |histogram|
    && Tally(histogram, n - 1) <= half < Tally(histogram, n)
  }

  /** Adds up the histogram until more than half of the stake is reached. */
  method CountVotes(histogram: seq<nat>, total: nat) returns (count: nat)
    requires histogram != [] && total == histogram[0] + Tally(histogram, |histogram| - 1)
    ensures total - histogram[0] < 2 ==> count == 0
    ensures total - histogram[0] >= 2 ==> IsMedian(histogram, count, (total - histogram[0]) / 2)
  {
    var half := (total - histogram[0]) / 2;
    count := 0;
    if half > 0 {
      var tally := 0;
      while count < |histogram| - 1 && tally <= half
        invariant count < |histogram| && tally == Tally(histogram, count)
        invariant count > 0 ==> Tally(histogram, count - 1) <= half
      {
        count := count + 1;
        tally := tally + histogram[count];
      }
    }
  }
}
