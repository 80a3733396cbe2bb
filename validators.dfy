/** The watch-list score validator. */
module Validators {
  import opened Results
  import opened Exceptions

  const MinScore: int := 0
  const MaxScore: int := 10

  /** `ScoreValidator.__call__`: returns nothing for a score from 0 to 10
      inclusive and raises ValidationError carrying the value otherwise. */
  function ValidateScore(value: int): (r: Outcome<(), Exception>)
    ensures r.Returned? <==> MinScore <= value <= MaxScore
    ensures r.Raised? ==> r.exc == ValidationError(value)
  {
    if !(MinScore <= value <= MaxScore) then Raised(ValidationError(value)) else Returned(())
  }

  /** The accepted scores are exactly the eleven values 0 to 10. */
  lemma AcceptedScores()
    ensures forall v :: ValidateScore(v).Returned? ==> v in {0, 1, 2, 3, 4, 5, 6, 7, 8, 9, 10}
    ensures ValidateScore(-1).Raised? && ValidateScore(11).Raised?
  {
  }
}
