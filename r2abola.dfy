/**
  The R2ABola adaptation object: the quality ladder it received, the history
  of chosen quality indices and the history of measured throughputs, and the
  handlers that update them. Each method is proved against the functions of
  module Bola.
 */
module R2A {
  import opened Bola

  class R2ABola {
    /** The quality ladder: one bitrate per quality index. */
    var qi: seq<int>
    /** Every quality index chosen so far, seeded with 0. */
    var chosenQi: seq<nat>
    /** Every throughput measured so far, seeded with 0. */
    var throughput: seq<real>

    /** Both histories are non-empty, so their last entries exist. */
    ghost predicate Valid()
      reads this
    {
      |chosenQi| >= 1 && |throughput| >= 1
    }

    /** Every chosen index addresses a rung of the ladder. */
    ghost predicate HistoryInRange()
      reads this
    {
      forall j :: 0 <= j < |chosenQi| ==> chosenQi[j] < |qi|
    }

    constructor ()
      ensures Valid()
      ensures qi == [] && chosenQi == [0] && throughput == [0.0]
    {
      qi := [];
      chosenQi := [0];
      throughput := [0.0];
    }

    /** Stores the ladder read from the manifest; the histories are untouched. */
    method HandleXmlResponse(ladder: seq<int>)
      requires Valid()
      modifies this`qi
      ensures Valid()
      ensures qi == ladder
    {
      qi := ladder;
    }

    /** Chooses the quality of the next segment and returns its bitrate. */
    method HandleSegmentSizeRequest(bufferSamples: seq<(real, real)>, score: ScoreFn) returns (bitrate: int)
      requires Valid() && |qi| > 0
      modifies this`chosenQi
      ensures Valid()
      ensures |chosenQi| == |old(chosenQi)| + 1 && chosenQi[..|old(chosenQi)|] == old(chosenQi)
      ensures chosenQi == old(chosenQi) + [Choose(score, qi, CurrentBuffer(bufferSamples),
                                                   old(chosenQi[|chosenQi| - 1]), throughput[|throughput| - 1])]
      ensures chosenQi[|chosenQi| - 1] < |qi| && bitrate == qi[chosenQi[|chosenQi| - 1]]
      ensures old(HistoryInRange()) ==> HistoryInRange()
    {
      var qidx := BolaProto(bufferSamples, score);
      bitrate := qi[qidx];
    }

    /** Records a throughput sample when the segment was found, and only then. */
    method HandleSegmentSizeResponse(found: bool, sample: real)
      requires Valid()
      modifies this`throughput
      ensures Valid()
      ensures throughput == if found then old(throughput) + [sample] else old(throughput)
    {
      if found {
        throughput := throughput + [sample];
      }
    }

    /** Appends the decision for the next segment to chosenQi and returns it. */
    method BolaProto(bufferSamples: seq<(real, real)>, score: ScoreFn) returns (qidx: nat)
      requires Valid()
      modifies this`chosenQi
      ensures Valid()
      ensures chosenQi == old(chosenQi) + [qidx]
      ensures qidx == Choose(score, qi, CurrentBuffer(bufferSamples),
                             old(chosenQi[|chosenQi| - 1]), throughput[|throughput| - 1])
      ensures |qi| > 0 ==> qidx < |qi|
    {
      var ladder := qi;
      ghost var history := chosenQi;
      chosenQi := chosenQi + [0];
      var best := FindBestQi(ladder, bufferSamples, score);
      chosenQi := chosenQi[|chosenQi| - 1 := best];
      assert chosenQi == history + [best];
      if chosenQi[|chosenQi| - 1] > chosenQi[|chosenQi| - 2] {
        var prevMeasuredBandwidth := throughput[|throughput| - 1];
        var mLine := ScanMLine(ladder, prevMeasuredBandwidth);
        if mLine >= chosenQi[|chosenQi| - 1] {
          mLine := chosenQi[|chosenQi| - 1];
        } else if mLine < chosenQi[|chosenQi| - 2] {
          mLine := chosenQi[|chosenQi| - 2];
        } else {
          mLine := mLine + 1;
        }
        chosenQi := chosenQi[|chosenQi| - 1 := mLine];
        assert chosenQi == history + [mLine];
      }
      qidx := chosenQi[|chosenQi| - 1];
    }

    /** m_line: the index the scan over the ladder stops at, tracking the last
        bitrate that does not exceed the previously measured bandwidth. */
    static method ScanMLine(ladder: seq<int>, prevMeasuredBandwidth: real) returns (mLine: nat)
      ensures mLine == MLine(ladder, prevMeasuredBandwidth)
      ensures |ladder| > 0 ==> mLine < |ladder|
    {
      mLine := 0;
      var i := 0;
      while i < |ladder|
        invariant i <= |ladder|
        invariant forall j :: 0 <= j < i ==> ladder[j] as real <= prevMeasuredBandwidth
        invariant mLine == if i == 0 then 0 else i - 1
      {
        if prevMeasuredBandwidth < ladder[i] as real {
          break;
        }
        mLine := i;
        i := i + 1;
      }
      FirstAboveUnique(ladder, prevMeasuredBandwidth, 0, i);
    }

    /** The first ladder index with the greatest score at the current buffer
        level; 0 for an empty ladder. */
    static method FindBestQi(ladder: seq<int>, bufferSamples: seq<(real, real)>, score: ScoreFn) returns (bestQi: nat)
      ensures bestQi == FirstArgmax(Scores(score, ladder, CurrentBuffer(bufferSamples)))
      ensures |ladder| == 0 ==> bestQi == 0
      ensures |ladder| > 0 ==> IsFirstMax(Scores(score, ladder, CurrentBuffer(bufferSamples)), bestQi)
    {
      ghost var scores := Scores(score, ladder, CurrentBuffer(bufferSamples));
      bestQi := 0;
      var maxValue := NegInf;
      var currentBuffer := 0.0;
      if |bufferSamples| > 0 {
        currentBuffer := bufferSamples[|bufferSamples| - 1].1;
      }
      var i := 0;
      while i < |ladder|
        invariant i <= |ladder|
        invariant bestQi == FirstArgmaxOf(scores, i)
        invariant i == 0 ==> maxValue == NegInf
        invariant i > 0 ==> maxValue == Finite(scores[bestQi])
      {
        var value := score(ladder[i], currentBuffer);
        if Exceeds(value, maxValue) {
          maxValue := Finite(value);
          bestQi := i;
        }
        i := i + 1;
      }
      if |ladder| > 0 {
        FirstArgmaxIsFirstMax(scores);
      }
    }
  }
}
