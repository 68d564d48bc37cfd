/** The rendering surface the engines draw on (Meadow's `GraphicsLibrary`).
    Its rasterisation is not modelled: every call is recorded, in order, in a
    ghost trace of events, and the two pieces of mutable state the engines
    read and write, the current font and the current rotation, are fields. */
module Graphics {
  import opened DotNet

  /** Font metrics, in pixels per character cell. */
  datatype Font = Font(width: nat, height: nat)

  /** Colours are opaque to the engines. */
  datatype Color = Color(argb: nat)

  const White := Color(0xFFFF_FFFF)
  const Yellow := Color(0xFFFF_FF00)

  /** The four orientations of `GraphicsLibrary.Rotation`, 0 to 270 degrees. */
  type Rotation = r: int | 0 <= r < 4

  /** One call on the surface. A text event records the font and rotation
      in force when it was drawn; `color == None` is the overload that uses
      the surface's default colour. */
  datatype Event =
    | Cleared
    | Line(x1: int, y1: int, x2: int, y2: int, color: Color)
    | Text(x: int, y: int, text: string, textColor: Option<Color>, font: Font, rotation: Rotation)
    | Shown

  class GraphicsLibrary {
    var CurrentFont: Font
    var CurrentRotation: Rotation
    /** Every call made on this surface so far. */
    ghost var Trace: seq<Event>

    constructor (font: Font, rotation: Rotation)
      ensures CurrentFont == font && CurrentRotation == rotation && Trace == []
    {
      CurrentFont, CurrentRotation := font, rotation;
      Trace := [];
    }

    method Clear()
      modifies this`Trace
      ensures Trace == old(Trace) + [Cleared]
    {
      Trace := Trace + [Cleared];
    }

    method DrawLine(x1: int, y1: int, x2: int, y2: int, color: Color)
      modifies this`Trace
      ensures Trace == old(Trace) + [Line(x1, y1, x2, y2, color)]
    {
      Trace := Trace + [Line(x1, y1, x2, y2, color)];
    }

    method DrawText(x: int, y: int, text: string, color: Option<Color>)
      modifies this`Trace
      ensures Trace == old(Trace) + [Text(x, y, text, color, CurrentFont, CurrentRotation)]
    {
      Trace := Trace + [Text(x, y, text, color, CurrentFont, CurrentRotation)];
    }

    method Show()
      modifies this`Trace
      ensures Trace == old(Trace) + [Shown]
    {
      Trace := Trace + [Shown];
    }
  }
}
