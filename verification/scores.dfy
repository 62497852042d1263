/** The `Scores` resource: last score, best score and whether the last score
    set a new record. It lives for the whole process and is only written by
    `register_score`. */
module Scoring {

  /** The three fields of `Scores` as a value. */
  datatype Record = Record(endScore: int, bestScore: int, newRecord: bool)

  /** Best score is at least the end score: holds after any registration. */
  predicate BestCoversEnd(r: Record)
  {
    r.bestScore >= r.endScore
  }

  /** `Scores::default`. */
  function DefaultRecord(): (r: Record)
    ensures r.endScore == 0 && r.bestScore == 0 && !r.newRecord
    ensures BestCoversEnd(r)
  {
    Record(0, 0, false)
  }

  /** The record after `register_score(s)`; the fields are computed in the
      order the source assigns them. */
  function Register(r: Record, s: int): (r': Record)
    ensures r'.newRecord <==> s > r.bestScore
    ensures r'.endScore == s
    ensures r'.bestScore >= r.bestScore && r'.bestScore >= s
    ensures r'.bestScore == r.bestScore || r'.bestScore == s
    ensures BestCoversEnd(r')
  {
    var newRecord := s > r.bestScore;
    var endScore := s;
    var bestScore := if r.bestScore >= endScore then r.bestScore else endScore;
    Record(endScore, bestScore, newRecord)
  }

  /** A new record is exactly when the best score moves, and it moves to `s`. */
  lemma NewRecordMovesBest(r: Record, s: int)
    ensures Register(r, s).newRecord ==> Register(r, s).bestScore == s
    ensures !Register(r, s).newRecord ==> Register(r, s).bestScore == r.bestScore
  {
  }

  /** The best score after a run of registrations is the largest of the
      starting best and every registered score. */
  function RegisterAll(r: Record, scores: seq<int>): (r': Record)
    decreases |scores|
  {
    if scores == [] then r else RegisterAll(Register(r, scores[0]), scores[1..])
  }

  lemma {:induction false} BestIsRunningMax(r: Record, scores: seq<int>)
    ensures RegisterAll(r, scores).bestScore >= r.bestScore
    ensures forall i :: 0 <= i < |scores| ==> RegisterAll(r, scores).bestScore >= scores[i]
    ensures RegisterAll(r, scores).bestScore == r.bestScore ||
            exists i :: 0 <= i < |scores| && RegisterAll(r, scores).bestScore == scores[i]
    decreases |scores|
  {
    if scores != [] {
      var r1 := Register(r, scores[0]);
      BestIsRunningMax(r1, scores[1..]);
      var fin := RegisterAll(r1, scores[1..]);
      assert fin == RegisterAll(r, scores);
      forall i | 0 <= i < |scores|
        ensures fin.bestScore >= scores[i]
      {
        if i > 0 {
          assert scores[i] == scores[1..][i - 1];
        }
      }
      if fin.bestScore != r.bestScore {
        if fin.bestScore == r1.bestScore {
          assert fin.bestScore == scores[0];
        } else {
          var j :| 0 <= j < |scores[1..]| && fin.bestScore == scores[1..][j];
          assert fin.bestScore == scores[j + 1];
        }
      }
    }
  }

  /** The `Scores` resource, updated in place. */
  class Scores {
    var endScore: int
    var bestScore: int
    var newRecord: bool

    function Value(): Record
      reads this
    {
      Record(endScore, bestScore, newRecord)
    }

    /** `Scores::default`. */
    constructor ()
      ensures Value() == DefaultRecord()
    {
      endScore := 0;
      bestScore := 0;
      newRecord := false;
    }

    /** `register_score`: overwrite the three fields. */
    method RegisterScore(s: int)
      modifies this
      ensures Value() == Register(old(Value()), s)
      ensures newRecord <==> s > old(bestScore)
      ensures endScore == s && bestScore >= old(bestScore) && bestScore >= endScore
    {
      newRecord := s > bestScore;
      endScore := s;
      bestScore := if bestScore >= endScore then bestScore else endScore;
    }
  }
}
