/** The signal data model shared by every part of the program: the lamp
    enumerations and the stage / light-specification records. */
module Signal {

  /** The colours a lamp position can take; `DontPrint` marks a position
      that is laid out but never drawn, `Unset` is the value an unrecognised
      layout character leaves behind. */
  datatype LampColor = Unset | Unknown | Bg | Red | Amber | Green | White | Off | DontPrint

  datatype LampShape = Circle | Square | Diamond | Triangle

  datatype LampSymbol =
    | NoSymbol | LeftArrow | RightArrow | ForwardArrow
    | Horizontal | Vertical | Cross | SquareMark

  /** One entry of a light's timeline: from `timeOffset` seconds into the
      loop, the lamps show `state`. */
  datatype Stage = Stage(timeOffset: int, state: string)

  /** The per-position summary derived once from all stages of a light
      (`present` is the program's `exists` flag). */
  datatype LampInfo = LampInfo(color: LampColor, shape: LampShape, symbol: LampSymbol, present: bool)

  /** A zeroed lamp record, as the loader's zero-filled allocation leaves it. */
  const NoLamp := LampInfo(Unset, Circle, NoSymbol, false)

  /** The part of a light specification the signal logic reads: loop time,
      layout and stages.  The stage array of the program ends with a
      zero-filled terminator (empty state, offset 0); here the sequence
      simply ends, and the terminator is implicit.  The light's name is
      searched as a separate sequence (`Placement.ByName`), and its lamp
      records as a separate array (`LampFold.FillLamps`). */
  datatype Spec = Spec(
    loopTime: int,
    layout: string,
    stages: seq<Stage>)

  /** The stage returned when no stage covers the requested time. */
  const EmptyStage := Stage(0, "")
}
