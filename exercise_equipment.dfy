/** The closed list of equipment names an exercise of the catalog can carry. */
module ExerciseEquipment {

  const ASSISTED := "assisted"
  const BAND := "band"
  const BARBELL := "barbell"
  const BODY_WEIGHT := "body weight"
  const BOSU_BALL := "bosu ball"
  const CABLE := "cable"
  const DUMBBELL := "dumbbell"
  const ELLIPTICAL_MACHINE := "elliptical machine"
  const EZ_BARBELL := "ez barbell"
  const HAMMER := "hammer"
  const KETTLEBELL := "kettlebell"
  const LEVERAGE_MACHINE := "leverage machine"
  const MEDICINE_BALL := "medicine ball"
  const OLYMPIC_BARBELL := "olympic barbell"
  const RESISTANCE_BAND := "resistance band"
  const ROLLER := "roller"
  const ROPE := "rope"
  const SKIERG_MACHINE := "skierg machine"
  const SLED_MACHINE := "sled machine"
  const SMITH_MACHINE := "smith machine"
  const STABILITY_BALL := "stability ball"
  const STATIONARY_BIKE := "stationary bike"
  const STEPMILL_MACHINE := "stepmill machine"
  const TIRE := "tire"
  const TRAP_BAR := "trap bar"
  const UPPER_BODY_ERGOMETER := "upper body ergometer"
  const WEIGHTED := "weighted"
  const WHEEL_ROLLER := "wheel roller"

  /** Every equipment name, in declaration order: one entry per constant. */
  function Values(): (r: seq<string>)
    ensures |r| == 28
  {
    [ ASSISTED, BAND, BARBELL, BODY_WEIGHT, BOSU_BALL, CABLE, DUMBBELL,
      ELLIPTICAL_MACHINE, EZ_BARBELL, HAMMER, KETTLEBELL, LEVERAGE_MACHINE,
      MEDICINE_BALL, OLYMPIC_BARBELL, RESISTANCE_BAND, ROLLER, ROPE,
      SKIERG_MACHINE, SLED_MACHINE, SMITH_MACHINE, STABILITY_BALL,
      STATIONARY_BIKE, STEPMILL_MACHINE, TIRE, TRAP_BAR,
      UPPER_BODY_ERGOMETER, WEIGHTED, WHEEL_ROLLER ]
  }

  /** `ExerciseEquipment.isValid`: membership in `values()`. */
  function IsValid(equipment: string): bool {
    equipment in Values()
  }

  /** An equipment name is valid exactly when it is one of the constants. */
  lemma IsValidIffConstant(equipment: string)
    ensures IsValid(equipment) <==>
      equipment == ASSISTED ||
      equipment == BAND ||
      equipment == BARBELL ||
      equipment == BODY_WEIGHT ||
      equipment == BOSU_BALL ||
      equipment == CABLE ||
      equipment == DUMBBELL ||
      equipment == ELLIPTICAL_MACHINE ||
      equipment == EZ_BARBELL ||
      equipment == HAMMER ||
      equipment == KETTLEBELL ||
      equipment == LEVERAGE_MACHINE ||
      equipment == MEDICINE_BALL ||
      equipment == OLYMPIC_BARBELL ||
      equipment == RESISTANCE_BAND ||
      equipment == ROLLER ||
      equipment == ROPE ||
      equipment == SKIERG_MACHINE ||
      equipment == SLED_MACHINE ||
      equipment == SMITH_MACHINE ||
      equipment == STABILITY_BALL ||
      equipment == STATIONARY_BIKE ||
      equipment == STEPMILL_MACHINE ||
      equipment == TIRE ||
      equipment == TRAP_BAR ||
      equipment == UPPER_BODY_ERGOMETER ||
      equipment == WEIGHTED ||
      equipment == WHEEL_ROLLER
  {
    var v := Values();
    if equipment in v {
      var i :| 0 <= i < |v| && v[i] == equipment;
    }
  }

  /** No equipment name is listed twice. */
  lemma ValuesDistinct()
    ensures forall i, j :: 0 <= i < j < |Values()| ==> Values()[i] != Values()[j]
  {
  }
}
