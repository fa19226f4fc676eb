// The string constants both planners compare against: the two move types, the
// wildcard applicability "ANY" and the task and service conditions of the ontology.
module MoveTypes {

  const INTERNATIONAL: string := "INTERNATIONAL"
  const DOMESTIC_RU: string := "DOMESTIC_RU"
  const ANY: string := "ANY"

  /** Condition: some item is fragile. */
  const FRAGILE_PRESENT: string := "ХрупкоеЕсть"
  /** Condition: the move is international. */
  const INTERNATIONAL_MOVE: string := "Международный"
  /** Condition: a work permit is needed. */
  const PERMIT_NEEDED: string := "НужноРазрешение"

  /** `applicable_type in ("ANY", move_type)`. */
  predicate Applies(applicableType: string, moveType: string)
  {
    applicableType == ANY || applicableType == moveType
  }
}
