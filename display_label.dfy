/** A text label of the scrolling graph: title, x-axis or y-axis caption. */
module DisplayLabels {
  import opened DotNet
  import opened Graphics

  datatype Alignment = Center | Left | Right

  /** `font` and `color` are optional (`None` is C#'s `null`): without a
      font the surface's current font is used, without a colour the
      surface's default colour. A `null` text is represented by "", which
      the graph treats the same way (both are skipped). */
  datatype DisplayLabel = DisplayLabel(
    font: Option<Font>,
    color: Option<Color>,
    text: string,
    textAlignment: Alignment)
}
