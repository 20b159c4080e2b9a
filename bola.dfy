/**
  Specification of the BOLA quality decision of the R2ABola adaptation
  algorithm, as pure functions: the scores of the ladder, the first-maximum
  argmax over them, the throughput scan that yields m_line, the three-way
  hysteresis branch, and the decision of one call.
 */
module Bola {

  /** The BOLA objective of a bitrate at a buffer level,
      (V * (U(bitrate) + gamma) - buffer) / bitrate with V = 0.93, gamma = 10
      and U(b) = ln(b / qi[0]) against the first bitrate qi[0], computed in
      floating point; it is left abstract. */
  type ScoreFn = (int, real) -> real

  /** Bitrates do not decrease along the ladder. */
  predicate Ascending(ladder: seq<int>) {
    forall i, j :: 0 <= i < j < |ladder| ==> ladder[i] <= ladder[j]
  }

  /** The score of every rung of the ladder, in ladder order. */
  function Scores(score: ScoreFn, ladder: seq<int>, buffer: real): seq<real>
  {
    seq(|ladder|, j requires 0 <= j < |ladder| => score(ladder[j], buffer))
  }

  /** The buffer level used by the score: the level of the most recent
      (timestamp, level) sample, or 0 when there is none yet. */
  function CurrentBuffer(samples: seq<(real, real)>): real
  {
    if |samples| > 0 then samples[|samples| - 1].1 else 0.0
  }

  /** A running maximum that starts below every real number. */
  datatype Bound = NegInf | Finite(value: real)

  /** x is strictly above the running maximum b. */
  predicate Exceeds(x: real, b: Bound) {
    match b
    case NegInf => true
    case Finite(m) => x > m
  }

  /** k is the first index at which the first n entries of s attain their maximum. */
  predicate IsFirstMaxOf(s: seq<real>, n: nat, k: nat)
    requires n <= |s|
  {
    k < n &&
    (forall j :: 0 <= j < n ==> s[j] <= s[k]) &&
    (forall j :: 0 <= j < k ==> s[j] < s[k])
  }

  /** k is the first index at which s attains its maximum. */
  predicate IsFirstMax(s: seq<real>, k: nat) {
    IsFirstMaxOf(s, |s|, k)
  }

  /** The index a left-to-right scan over the first n entries of s keeps
      when it replaces its best only on a strictly greater value; 0 when n is 0. */
  function FirstArgmaxOf(s: seq<real>, n: nat): (k: nat)
    requires n <= |s|
    ensures n == 0 ==> k == 0
    ensures n > 0 ==> k < n
  {
    if n <= 1 then 0
    else
      var k := FirstArgmaxOf(s, n - 1);
      if s[n - 1] > s[k] then n - 1 else k
  }

  /** The index the scan keeps over the whole of s. */
  function FirstArgmax(s: seq<real>): (k: nat)
    ensures |s| == 0 ==> k == 0
    ensures |s| > 0 ==> k < |s|
  {
    FirstArgmaxOf(s, |s|)
  }

  /** The scan over a non-empty prefix returns that prefix's first maximal index. */
  lemma {:induction false} FirstArgmaxOfIsFirstMax(s: seq<real>, n: nat)
    requires 0 < n <= |s|
    ensures IsFirstMaxOf(s, n, FirstArgmaxOf(s, n))
  {
    if n > 1 {
      FirstArgmaxOfIsFirstMax(s, n - 1);
    }
  }

  /** The scan over a non-empty sequence returns its first maximal index. */
  lemma FirstArgmaxIsFirstMax(s: seq<real>)
    requires |s| > 0
    ensures IsFirstMax(s, FirstArgmax(s))
  {
    FirstArgmaxOfIsFirstMax(s, |s|);
  }

  /** The first maximal index is unique, so it is exactly what the scan returns. */
  lemma FirstMaxIsFirstArgmax(s: seq<real>, k: nat)
    requires IsFirstMax(s, k)
    ensures FirstArgmax(s) == k
  {
    FirstArgmaxIsFirstMax(s);
  }

  /** The first index from i on whose bitrate exceeds the throughput tp,
      or the length of the ladder when there is none. */
  function FirstAbove(ladder: seq<int>, tp: real, i: nat): (n: nat)
    requires i <= |ladder|
    ensures i <= n <= |ladder|
    ensures forall j :: i <= j < n ==> ladder[j] as real <= tp
    ensures n < |ladder| ==> tp < ladder[n] as real
    decreases |ladder| - i
  {
    if i == |ladder| || tp < ladder[i] as real then i
    else FirstAbove(ladder, tp, i + 1)
  }

  /** Any n with the two properties of FirstAbove is FirstAbove. */
  lemma {:induction false} FirstAboveUnique(ladder: seq<int>, tp: real, i: nat, n: nat)
    requires i <= n <= |ladder|
    requires forall j :: i <= j < n ==> ladder[j] as real <= tp
    requires n < |ladder| ==> tp < ladder[n] as real
    ensures FirstAbove(ladder, tp, i) == n
    decreases n - i
  {
    if i < n {
      FirstAboveUnique(ladder, tp, i + 1, n);
    }
  }

  /** m_line: the last index the scan reaches before the first bitrate that
      exceeds tp; 0 when the very first bitrate already exceeds it. */
  function MLine(ladder: seq<int>, tp: real): (m: nat)
    ensures |ladder| > 0 ==> m < |ladder|
    ensures |ladder| == 0 || tp < ladder[0] as real ==> m == 0
    ensures forall j :: 0 <= j <= m && j < |ladder| && ladder[0] as real <= tp ==> ladder[j] as real <= tp
    ensures m + 1 < |ladder| && ladder[0] as real <= tp ==> tp < ladder[m + 1] as real
  {
    var n := FirstAbove(ladder, tp, 0);
    if n == 0 then 0 else n - 1
  }

  /** On an ascending ladder m_line is the largest index whose bitrate does
      not exceed tp, or 0 when there is none. */
  lemma MLineAscending(ladder: seq<int>, tp: real)
    requires Ascending(ladder) && |ladder| > 0
    ensures var m := MLine(ladder, tp);
      (ladder[0] as real <= tp ==>
         ladder[m] as real <= tp &&
         forall j :: m < j < |ladder| ==> tp < ladder[j] as real) &&
      (tp < ladder[0] as real ==> m == 0)
  {
    var m := MLine(ladder, tp);
    if ladder[0] as real <= tp && m + 1 < |ladder| {
      forall j | m < j < |ladder|
        ensures tp < ladder[j] as real
      {
        assert ladder[m + 1] <= ladder[j];
      }
    }
  }

  /** The three-way correction applied when the candidate steps up from the
      previous choice. */
  function Adjust(candidate: nat, previous: nat, mLine: nat): (r: nat)
    ensures previous < candidate ==> previous <= r <= candidate
    ensures mLine >= candidate ==> r == candidate
    ensures mLine < candidate && mLine < previous ==> r == previous
    ensures previous <= mLine < candidate ==> r == mLine + 1
  {
    if mLine >= candidate then candidate
    else if mLine < previous then previous
    else mLine + 1
  }

  /** The quality index chosen by one call, given the optimiser's candidate,
      the previous choice and the last measured throughput. */
  function Decide(ladder: seq<int>, candidate: nat, previous: nat, tp: real): (q: nat)
    ensures q <= candidate
    ensures candidate <= previous ==> q == candidate
    ensures previous < candidate ==> previous <= q
    ensures previous < candidate ==> q == Adjust(candidate, previous, MLine(ladder, tp))
  {
    if candidate > previous then Adjust(candidate, previous, MLine(ladder, tp))
    else candidate
  }

  /** The index one call chooses from the ladder's scores at a buffer level. */
  function Choose(score: ScoreFn, ladder: seq<int>, buffer: real, previous: nat, tp: real): (q: nat)
    ensures |ladder| > 0 ==> q < |ladder|
  {
    Decide(ladder, FirstArgmax(Scores(score, ladder, buffer)), previous, tp)
  }

  /** A one-rung ladder always yields index 0, whatever the history. */
  lemma SingleRungAlwaysZero(score: ScoreFn, ladder: seq<int>, buffer: real, previous: nat, tp: real)
    requires |ladder| == 1
    ensures Choose(score, ladder, buffer, previous, tp) == 0
  {
  }

  /** The worked example: ladder 300/750/1200/1850, previous choice 0,
      candidate 2 and a throughput of 800 give m_line 1 and the result 2. */
  lemma HysteresisExample()
    ensures MLine([300, 750, 1200, 1850], 800.0) == 1
    ensures Decide([300, 750, 1200, 1850], 2, 0, 800.0) == 2
  {
    FirstAboveUnique([300, 750, 1200, 1850], 800.0, 0, 2);
  }
}
