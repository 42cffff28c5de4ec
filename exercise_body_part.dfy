/** The closed list of body parts an exercise of the catalog can target. */
module ExerciseBodyPart {

  const BACK := "back"
  const CARDIO := "cardio"
  const CHEST := "chest"
  const LOWER_ARMS := "lower arms"
  const LOWER_LEGS := "lower legs"
  const NECK := "neck"
  const SHOULDERS := "shoulders"
  const UPPER_ARMS := "upper arms"
  const UPPER_LEGS := "upper legs"
  const WAIST := "waist"

  /** Every body part, in declaration order: one entry per constant. */
  function Values(): (r: seq<string>)
    ensures |r| == 10
  {
    [BACK, CARDIO, CHEST, LOWER_ARMS, LOWER_LEGS, NECK, SHOULDERS, UPPER_ARMS, UPPER_LEGS, WAIST]
  }

  /** `ExerciseBodyPart.isValid`: membership in `values()`. */
  function IsValid(bodyPart: string): bool {
    bodyPart in Values()
  }

  /** A body part is valid exactly when it is one of the constants. */
  lemma IsValidIffConstant(bodyPart: string)
    ensures IsValid(bodyPart) <==>
      bodyPart == BACK || bodyPart == CARDIO || bodyPart == CHEST || bodyPart == LOWER_ARMS ||
      bodyPart == LOWER_LEGS || bodyPart == NECK || bodyPart == SHOULDERS ||
      bodyPart == UPPER_ARMS || bodyPart == UPPER_LEGS || bodyPart == WAIST
  {
    var v := Values();
    if bodyPart in v {
      var i :| 0 <= i < |v| && v[i] == bodyPart;
    }
  }

  /** No body part is listed twice. */
  lemma ValuesDistinct()
    ensures forall i, j :: 0 <= i < j < |Values()| ==> Values()[i] != Values()[j]
  {
  }
}
