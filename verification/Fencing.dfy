/** The enumerations that the sensor, the match machine and the automatic referee share. */
module Fencing {
  datatype Weapon = Foil | Epee | Sabre | UnknownWeapon

  datatype TimerState = Fighting | Break | Injury | AdditionalMinute | MatchEnded | UndefinedTimerState

  datatype Priority = NoPrio | PrioLeft | PrioRight

  datatype Side = Left | Right

  /** A light mask is the set of its bits. */
  datatype Light = ReverseColors | Buzz | Green | WhiteR | OrangeR | OrangeL | WhiteL | Red | Parry | PowerProblem

  type Mask = set<Light>
}
