/** Input events, cursor shapes and the commands that callbacks issue. */
module Events {
  import opened Geometry

  /** pygame's number for the left mouse button. */
  const LeftButton := 1

  /** The events the core distinguishes: mouse motion, a mouse-button press, the window's
      quit request, the mixer's end-of-track notification, and anything else. */
  datatype Event =
    | Motion(pos: Point)
    | Down(button: int, pos: Point)
    | Quit
    | TrackEnd
    | Other

  /** The system cursor shapes a widget requests. */
  datatype Cursor = Hand | Arrow

  /** What a widget's callback asks of the rest of the program, recorded instead of executed. */
  datatype Command =
    | ChangeScene(target: string)
    | ToggleMusic
    | VolumeUp
    | VolumeDown
    | SetLanguage(code: string)

  datatype Colour = Colour(r: int, g: int, b: int)
}
