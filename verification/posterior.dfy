/**
 * The keyword-spotting posterior handler: a ring buffer of the last
 * historyLength score vectors (one uint8 per category), per-category moving
 * sums over that buffer, a trigger threshold on the best category, and a
 * per-category suppression countdown after each detection.
 *
 * The C++ integer widths are explicit: uint32 fields wrap modulo 2^32 and the
 * start index of the slot being written is held in a uint8, so it is
 * truncated modulo 256.
 */
module Posterior {

  const U32_LIMIT: int := 0x1_0000_0000

  type U8 = x: int | 0 <= x < 256
  type U32 = x: int | 0 <= x < 0x1_0000_0000

  /** The ESP-IDF status code; the handler only ever reports success. */
  datatype EspErr = EspOk

  // ---------------------------------------------------------------------
  // Arithmetic of the C++ types
  // ---------------------------------------------------------------------

  /** Reduction of an integer to uint32, as C++ unsigned arithmetic does. */
  function WrapU32(x: int): (r: U32)
    ensures 0 <= x < U32_LIMIT ==> r == x
    ensures -U32_LIMIT <= x < 0 ==> r == x + U32_LIMIT
    ensures 0 <= x ==> r <= x
  {
    x % U32_LIMIT
  }

  /** Milliseconds since the last call, computed as a uint32 difference. */
  function Elapsed(now: U32, last: U32): (r: U32)
    ensures last <= now ==> r == now - last
    ensures now < last ==> r == now - last + U32_LIMIT
  {
    WrapU32(now - last)
  }

  /** Trigger threshold: the per-sample threshold times the history length, as a uint32 product. */
  function TriggerThreshold(single: U8, historyLength: U32): (r: U32)
    ensures single * historyLength < U32_LIMIT ==> r == single * historyLength
    ensures r <= single * historyLength
  {
    WrapU32(single * historyLength)
  }

  /** Up to 0x1010101 history slots the threshold product cannot wrap. */
  lemma ThresholdExact(single: U8, historyLength: U32)
    requires historyLength <= 0x1010101
    ensures TriggerThreshold(single, historyLength) == single * historyLength
  {
    assert 255 * historyLength < U32_LIMIT;
    assert single * historyLength <= 255 * historyLength;
  }

  /** uint32 accumulation of one more score. */
  function AddScore(acc: U32, score: U8): (r: U32)
    ensures acc + score < U32_LIMIT ==> r == acc + score
    ensures U32_LIMIT <= acc + score ==> r == acc + score - U32_LIMIT
  {
    WrapU32(acc + score)
  }

  /** The write counter advances by one and wraps to 0 after historyLength - 1. */
  function NextSample(sample: U32, historyLength: U32): (r: U32)
    requires sample < historyLength
    ensures r < historyLength
    ensures r == (sample + 1) % historyLength
  {
    if sample < historyLength - 1 then
      ModBelow(sample + 1, historyLength);
      sample + 1
    else
      ModSelf(historyLength);
      0
  }

  /** x mod n for 0 <= x < n, kept apart so NextSample's proof stays small and stable. */
  lemma ModBelow(x: nat, n: nat)
    requires x < n
    ensures x % n == x
  {
  }

  /** n mod n is 0: the wrap case of NextSample. */
  lemma ModSelf(n: nat)
    requires 0 < n
    ensures n % n == 0
  {
  }

  /** First buffer position of the slot being written, stored in a uint8. */
  function SlotStart(sample: U32, categoryCount: U32): (r: U8)
    ensures r <= sample * categoryCount
    ensures sample * categoryCount < 256 ==> r == sample * categoryCount
  {
    (sample * categoryCount) % 256
  }

  /** A suppression countdown after elapsed milliseconds, saturating at 0. */
  function Countdown(left: U32, elapsed: U32): (r: U32)
    ensures r <= left
    ensures r == 0 <==> left <= elapsed
    ensures r != 0 ==> r + elapsed == left
  {
    if left > elapsed then left - elapsed else 0
  }

  // ---------------------------------------------------------------------
  // Reference definitions over the buffer contents
  // ---------------------------------------------------------------------

  /** The sum of column j of the first rows rows of a row-major buffer with count columns. */
  function ColumnSum(buffer: seq<U8>, count: nat, j: nat, rows: nat): nat
    requires j < count && rows * count <= |buffer|
  {
    if rows == 0 then 0
    else
      assert (rows - 1) * count + j < rows * count;
      ColumnSum(buffer, count, j, rows - 1) + buffer[(rows - 1) * count + j]
  }

  /**
   * k is the category with the largest moving sum, and among equal sums the
   * one with the highest index.
   */
  ghost predicate IsTopCandidate(sums: seq<U32>, k: int)
  {
    && 0 <= k < |sums|
    && (forall i :: 0 <= i < |sums| ==> sums[i] <= sums[k])
    && (forall i :: k < i < |sums| ==> sums[i] < sums[k])
  }

  // ---------------------------------------------------------------------
  // Properties of the reference definitions
  // ---------------------------------------------------------------------

  /** Each category's column sum is at most 255 per row. */
  lemma {:induction false} ColumnSumBound(buffer: seq<U8>, count: nat, j: nat, rows: nat)
    requires j < count && rows * count <= |buffer|
    ensures ColumnSum(buffer, count, j, rows) <= 255 * rows
  {
    if rows > 0 {
      assert (rows - 1) * count <= rows * count;
      ColumnSumBound(buffer, count, j, rows - 1);
    }
  }

  /** With at most 0x1010101 history slots no moving sum can wrap, so it is the exact column sum. */
  lemma ColumnSumFitsU32(buffer: seq<U8>, count: nat, j: nat, rows: nat)
    requires j < count && rows * count <= |buffer|
    requires rows <= 0x1010101
    ensures ColumnSum(buffer, count, j, rows) % U32_LIMIT == ColumnSum(buffer, count, j, rows)
  {
    ColumnSumBound(buffer, count, j, rows);
  }

  /** Summing mod 2^32 step by step is the same as summing first. */
  lemma AddScoreMod(sum: nat, score: U8)
    ensures AddScore(sum % U32_LIMIT, score) == (sum + score) % U32_LIMIT
  {
    var q := sum / U32_LIMIT;
    assert sum == q * U32_LIMIT + sum % U32_LIMIT;
    assert (sum % U32_LIMIT + score) == (sum + score) - q * U32_LIMIT;
  }

  /** The top candidate is unique. */
  lemma TopCandidateUnique(sums: seq<U32>, a: int, b: int)
    requires IsTopCandidate(sums, a) && IsTopCandidate(sums, b)
    ensures a == b
  {
    assert sums[a] <= sums[b] <= sums[a];
  }

  /**
   * Only slots of successive samples collide when the uint8 start index
   * cannot overflow: if historyLength * categoryCount <= 256, sample s
   * writes positions s * categoryCount and onwards.
   */
  lemma SlotStartExact(sample: U32, historyLength: U32, categoryCount: U32)
    requires sample < historyLength && 1 <= categoryCount
    requires historyLength * categoryCount <= 256
    ensures SlotStart(sample, categoryCount) == sample * categoryCount
  {
    assert sample * categoryCount <= (historyLength - 1) * categoryCount;
  }

  /** Without truncation the slots of two different samples do not overlap. */
  lemma SlotsDisjoint(s1: U32, s2: U32, historyLength: U32, categoryCount: U32)
    requires s1 < historyLength && s2 < historyLength && s1 != s2 && 1 <= categoryCount
    requires historyLength * categoryCount <= 256
    ensures SlotStart(s1, categoryCount) + categoryCount <= SlotStart(s2, categoryCount)
         || SlotStart(s2, categoryCount) + categoryCount <= SlotStart(s1, categoryCount)
  {
    SlotStartExact(s1, historyLength, categoryCount);
    SlotStartExact(s2, historyLength, categoryCount);
    if s1 < s2 {
      RowsFit(s1 + 1, s2, categoryCount);
    } else {
      RowsFit(s2 + 1, s1, categoryCount);
    }
  }

  /**
   * With 35 history slots and 8 categories, sample 32 starts at 256, which
   * the uint8 index truncates to 0: it overwrites the slot of sample 0.
   */
  lemma SlotStartTruncates()
    ensures SlotStart(32, 8) == SlotStart(0, 8) == 0
  {
  }

  /** An all-zero history has all-zero column sums. */
  lemma {:induction false} ZeroHistoryHasZeroSums(buffer: seq<U8>, count: nat, j: nat, rows: nat)
    requires j < count && rows * count <= |buffer|
    requires forall i :: 0 <= i < |buffer| ==> buffer[i] == 0
    ensures ColumnSum(buffer, count, j, rows) == 0
  {
    if rows > 0 {
      assert (rows - 1) * count <= rows * count;
      ZeroHistoryHasZeroSums(buffer, count, j, rows - 1);
    }
  }

  /**
   * The first rows rows of a historyLength-row buffer fit in it. A named
   * monotonicity step, so the loops over the history never have to find this
   * product inequality themselves.
   */
  lemma RowsFit(rows: nat, historyLength: nat, count: nat)
    requires rows <= historyLength
    ensures rows * count <= historyLength * count
  {
  }

  /**
   * Position (row, j) lies inside row-major storage of historyLength rows of
   * count entries: the index bound of the moving-sum loop.
   */
  lemma RowIndexInBounds(row: nat, j: nat, historyLength: nat, count: nat)
    requires row < historyLength && j < count
    ensures row * count + j < (row + 1) * count <= historyLength * count
  {
    RowsFit(row + 1, historyLength, count);
  }

  /** The slot written for sample number sample stays inside the buffer, truncated or not. */
  lemma SlotInBounds(sample: U32, historyLength: U32, categoryCount: U32)
    requires sample < historyLength && 1 <= categoryCount
    ensures SlotStart(sample, categoryCount) + categoryCount <= historyLength * categoryCount
  {
    RowIndexInBounds(sample, categoryCount - 1, historyLength, categoryCount);
  }

  // ---------------------------------------------------------------------
  // Searching the best category
  // ---------------------------------------------------------------------

  /** Scan the moving sums; a later category wins a tie (the comparison is >=). */
  method TopCandidate(sums: array<U32>, count: nat) returns (top: nat)
    requires 1 <= count <= sums.Length
    ensures IsTopCandidate(sums[..count], top)
  {
    top := 0;
    for i := 0 to count
      invariant top < count && top <= i
      invariant forall k :: 0 <= k < i ==> sums[k] <= sums[top]
      invariant forall k :: top < k < i ==> sums[k] < sums[top]
    {
      if sums[i] >= sums[top] {
        top := i;
      }
    }
  }

  // ---------------------------------------------------------------------
  // The handler
  // ---------------------------------------------------------------------

  class PosteriorHandler {
    const historyLength: U32
    const triggerThreshold: U32
    const suppressionMs: U32
    const categoryCount: U32

    var topCandidateIndex: nat
    var lastUpdatedTime: U32
    var totalPosteriorsSamples: U32

    /** historyLength rows of categoryCount scores, row-major. */
    const posteriors: array<U8>
    /** Per category, the sum of its column of posteriors (the "moving average" kept as a sum). */
    const perClassMovingAverage: array<U32>
    /** Per category, milliseconds left before it may trigger again. */
    const perClassSuppressedTimeLeft: array<U32>

    ghost predicate Valid()
      reads this
    {
      && 1 <= historyLength
      && 1 <= categoryCount
      && historyLength * categoryCount < U32_LIMIT
      && posteriors.Length == historyLength * categoryCount
      && perClassMovingAverage.Length == categoryCount
      && perClassSuppressedTimeLeft.Length == categoryCount
      && perClassMovingAverage != perClassSuppressedTimeLeft
      && totalPosteriorsSamples < historyLength
      && topCandidateIndex < categoryCount
    }

    /** Every moving sum is its category's column sum over the whole history, as a uint32. */
    ghost predicate SumsMatchHistory()
      reads this, posteriors, perClassMovingAverage
      requires Valid()
    {
      forall j :: 0 <= j < categoryCount ==>
        perClassMovingAverage[j] == ColumnSum(posteriors[..], categoryCount, j, historyLength) % U32_LIMIT
    }

    /**
     * The buffer sizes come from the constructor's arguments; the handler
     * needs at least one history slot and one category (Handle reads slot 0
     * of each array), and the buffer size must fit the uint32 product used
     * to allocate it.
     */
    constructor (historyLength: U32, triggerThresholdSingle: U8, suppressionMs: U32, categoryCount: U32)
      requires 1 <= historyLength && 1 <= categoryCount
      requires historyLength * categoryCount < U32_LIMIT
      ensures Valid()
      ensures fresh(posteriors) && fresh(perClassMovingAverage) && fresh(perClassSuppressedTimeLeft)
      ensures this.historyLength == historyLength && this.suppressionMs == suppressionMs
      ensures this.categoryCount == categoryCount
      ensures triggerThreshold == TriggerThreshold(triggerThresholdSingle, historyLength)
      ensures topCandidateIndex == 0 && lastUpdatedTime == 0 && totalPosteriorsSamples == 0
      ensures forall i :: 0 <= i < posteriors.Length ==> posteriors[i] == 0
      ensures forall j :: 0 <= j < categoryCount ==> perClassMovingAverage[j] == 0
      ensures forall j :: 0 <= j < categoryCount ==> perClassSuppressedTimeLeft[j] == 0
      ensures SumsMatchHistory()
    {
      this.historyLength := historyLength;
      this.triggerThreshold := TriggerThreshold(triggerThresholdSingle, historyLength);
      this.suppressionMs := suppressionMs;
      this.categoryCount := categoryCount;
      topCandidateIndex := 0;
      lastUpdatedTime := 0;
      totalPosteriorsSamples := 0;

      var size := historyLength * categoryCount;
      var history := new U8[size];
      var sums := new U32[categoryCount];
      var suppressed := new U32[categoryCount];
      for i := 0 to size
        invariant forall k :: 0 <= k < i ==> history[k] == 0
      {
        history[i] := 0;
      }
      for i := 0 to categoryCount
        invariant forall k :: 0 <= k < i ==> sums[k] == 0 && suppressed[k] == 0
        invariant forall k :: 0 <= k < size ==> history[k] == 0
      {
        sums[i] := 0;
        suppressed[i] := 0;
      }
      posteriors := history;
      perClassMovingAverage := sums;
      perClassSuppressedTimeLeft := suppressed;
      new;
      forall j | 0 <= j < categoryCount
        ensures perClassMovingAverage[j] == ColumnSum(posteriors[..], categoryCount, j, historyLength) % U32_LIMIT
      {
        ZeroHistoryHasZeroSums(posteriors[..], categoryCount, j, historyLength);
      }
    }

    /** Count every category's suppression time down by elapsed milliseconds, stopping at 0. */
    method AgeSuppression(elapsed: U32)
      requires Valid()
      modifies perClassSuppressedTimeLeft
      ensures forall k :: 0 <= k < categoryCount ==>
        perClassSuppressedTimeLeft[k] == Countdown(old(perClassSuppressedTimeLeft[k]), elapsed)
    {
      for i := 0 to categoryCount
        invariant forall k :: 0 <= k < i ==>
          perClassSuppressedTimeLeft[k] == Countdown(old(perClassSuppressedTimeLeft[k]), elapsed)
        invariant forall k :: i <= k < categoryCount ==>
          perClassSuppressedTimeLeft[k] == old(perClassSuppressedTimeLeft[k])
      {
        if perClassSuppressedTimeLeft[i] > elapsed {
          perClassSuppressedTimeLeft[i] := perClassSuppressedTimeLeft[i] - elapsed;
        } else {
          perClassSuppressedTimeLeft[i] := 0;
        }
      }
    }

    /** Copy the categoryCount new scores into the history from position start on. */
    method StoreScores(start: nat, newPosteriors: seq<U8>)
      requires Valid()
      requires start + categoryCount <= posteriors.Length && categoryCount <= |newPosteriors|
      modifies posteriors
      ensures forall i :: 0 <= i < categoryCount ==> posteriors[start + i] == newPosteriors[i]
      ensures forall k :: 0 <= k < posteriors.Length && (k < start || start + categoryCount <= k) ==>
        posteriors[k] == old(posteriors[k])
    {
      for i := 0 to categoryCount
        invariant forall k :: 0 <= k < i ==> posteriors[start + k] == newPosteriors[k]
        invariant forall k :: 0 <= k < posteriors.Length && (k < start || start + i <= k) ==>
          posteriors[k] == old(posteriors[k])
      {
        posteriors[i + start] := newPosteriors[i];
      }
    }

    /** Reset the moving sums and add up every category's column of the history. */
    method RecomputeSums()
      requires Valid()
      modifies perClassMovingAverage
      ensures SumsMatchHistory()
    {
      for j := 0 to categoryCount
        invariant forall k :: 0 <= k < j ==> perClassMovingAverage[k] == 0
      {
        perClassMovingAverage[j] := 0;
      }

      for i := 0 to historyLength
        invariant i * categoryCount <= posteriors.Length
        invariant forall j :: 0 <= j < categoryCount ==>
          perClassMovingAverage[j] == ColumnSum(posteriors[..], categoryCount, j, i) % U32_LIMIT
      {
        AddRow(i);
      }
    }

    /** Add history row i to every category's moving sum. */
    method AddRow(i: nat)
      requires Valid() && i < historyLength
      requires i * categoryCount <= posteriors.Length
      requires forall j :: 0 <= j < categoryCount ==>
        perClassMovingAverage[j] == ColumnSum(posteriors[..], categoryCount, j, i) % U32_LIMIT
      modifies perClassMovingAverage
      ensures (i + 1) * categoryCount <= posteriors.Length
      ensures forall j :: 0 <= j < categoryCount ==>
        perClassMovingAverage[j] == ColumnSum(posteriors[..], categoryCount, j, i + 1) % U32_LIMIT
    {
      ghost var history := posteriors[..];
      var count := categoryCount;
      RowsFit(i + 1, historyLength, count);
      for j := 0 to count
        invariant forall k :: 0 <= k < j ==>
          perClassMovingAverage[k] == ColumnSum(history, count, k, i + 1) % U32_LIMIT
        invariant forall k :: j <= k < count ==>
          perClassMovingAverage[k] == ColumnSum(history, count, k, i) % U32_LIMIT
      {
        RowIndexInBounds(i, j, historyLength, count);
        var score := posteriors[i * count + j];
        assert ColumnSum(history, count, j, i + 1) == ColumnSum(history, count, j, i) + history[i * count + j];
        AddScoreMod(ColumnSum(history, count, j, i), score);
        perClassMovingAverage[j] := AddScore(perClassMovingAverage[j], score);
      }
      assert posteriors[..] == history;
    }

    /**
     * One inference step: store the new scores in the next history slot,
     * recompute every category's moving sum over the history, pick the top
     * category and report a detection when its sum reaches the threshold and
     * it is not suppressed. The output parameters keep their incoming values
     * when nothing is detected.
     */
    method Handle(newPosteriors: seq<U8>, timeMs: U32, topCategoryIndexIn: nat, triggerIn: bool)
      returns (status: EspErr, topCategoryIndex: nat, trigger: bool)
      requires Valid()
      requires categoryCount <= |newPosteriors|
      modifies this, posteriors, perClassMovingAverage, perClassSuppressedTimeLeft
      ensures Valid() && SumsMatchHistory()
      ensures status == EspOk
      ensures lastUpdatedTime == timeMs
      ensures totalPosteriorsSamples == NextSample(old(totalPosteriorsSamples), historyLength)
      // the new scores overwrite one slot and nothing else
      ensures SlotStart(old(totalPosteriorsSamples), categoryCount) + categoryCount <= posteriors.Length
      ensures forall i :: 0 <= i < categoryCount ==>
        posteriors[SlotStart(old(totalPosteriorsSamples), categoryCount) + i] == newPosteriors[i]
      ensures forall k :: 0 <= k < posteriors.Length ==>
        (k < SlotStart(old(totalPosteriorsSamples), categoryCount)
         || SlotStart(old(totalPosteriorsSamples), categoryCount) + categoryCount <= k)
        ==> posteriors[k] == old(posteriors[k])
      ensures IsTopCandidate(perClassMovingAverage[..], topCandidateIndex)
      // detection, and the suppression countdowns
      ensures
        var elapsed := Elapsed(timeMs, old(lastUpdatedTime));
        var fired := perClassMovingAverage[topCandidateIndex] >= triggerThreshold
          && Countdown(old(perClassSuppressedTimeLeft[..])[topCandidateIndex], elapsed) == 0;
        && (fired ==> topCategoryIndex == topCandidateIndex && trigger
                      && perClassSuppressedTimeLeft[topCandidateIndex] == suppressionMs)
        && (!fired ==> topCategoryIndex == topCategoryIndexIn && trigger == triggerIn)
        && (forall j :: 0 <= j < categoryCount && (j != topCandidateIndex || !fired) ==>
              perClassSuppressedTimeLeft[j] == Countdown(old(perClassSuppressedTimeLeft[j]), elapsed))
    {
      var elapsed := Elapsed(timeMs, lastUpdatedTime);
      var start := SlotStart(totalPosteriorsSamples, categoryCount);
      SlotInBounds(totalPosteriorsSamples, historyLength, categoryCount);
      lastUpdatedTime := timeMs;
      if totalPosteriorsSamples < historyLength - 1 {
        totalPosteriorsSamples := totalPosteriorsSamples + 1;
      } else {
        totalPosteriorsSamples := 0;
      }

      AgeSuppression(elapsed);
      ghost var aged := perClassSuppressedTimeLeft[..];
      StoreScores(start, newPosteriors);
      RecomputeSums();

      var top := TopCandidate(perClassMovingAverage, categoryCount);
      assert perClassMovingAverage[..categoryCount] == perClassMovingAverage[..];
      assert perClassSuppressedTimeLeft[..] == aged;
      topCandidateIndex := top;
      if perClassMovingAverage[top] >= triggerThreshold && perClassSuppressedTimeLeft[top] == 0 {
        topCategoryIndex := top;
        trigger := true;
        perClassSuppressedTimeLeft[top] := suppressionMs;
      } else {
        topCategoryIndex := topCategoryIndexIn;
        trigger := triggerIn;
      }
      status := EspOk;
    }
  }
}
