/** Plain-data SDL types the game logic reads: integer rectangles, float points
    and the keyboard/mouse events the event loops poll. */
module SdlTypes {

  /** SDL_Rect: integer top-left corner and size. */
  datatype Rect = Rect(x: int, y: int, w: int, h: int)

  /** SDL_Point: a point with integer coordinates. */
  datatype Point = Point(x: int, y: int)

  /** SDL_FPoint / glm::vec2: a point with float coordinates. */
  datatype FPoint = FPoint(x: real, y: real)

  /** The keys the menu and the game look at; every other key is OtherKey. */
  datatype Key = Up | Down | W | S | Return | Space | Escape | OtherKey

  /** One polled SDL event. */
  datatype Event = Quit | KeyDown(key: Key) | MouseButtonDown | OtherEvent

  /** The held-key snapshot SDL_GetKeyboardState gives the player each frame. */
  datatype Keys = Keys(left: bool, right: bool, space: bool, up: bool)
}
