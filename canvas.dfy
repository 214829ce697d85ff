/** The drawing surface as data. A `draw` function of the client is modelled as
    the list of painting calls it issues, in order; font selection and path
    construction are folded into the commands that use them. */
module Canvas {

  datatype Align = Left | Right

  datatype Command =
    | ClearRect(x: real, y: real, w: real, h: real)
    | FillRect(x: real, y: real, w: real, h: real, fill: string)
    | FillText(text: string, x: real, y: real, fill: string, align: Align)
    | RoundedRect(x: real, y: real, w: real, h: real, radius: real, fill: string)
    | VerticalStroke(x: real, y: real, length: real, stroke: string)

  const BaseWidth: real := 320.0
  const BackgroundColor := "white"
  const TitleBarColor := "#ddd"
  const FontColor := "black"

  /** The proportional layout scalars both screens derive from the canvas width. */
  datatype Metrics = Metrics(
    width: real, height: real,
    fontHeight: real, margin: real, padding: real,
    titleFontHeight: real, titleBarHeight: real, lineSpacing: real)

  /** The scalars of `draw` (chat.js:111-125, chats.js:29-43), computed exactly
      (no floating-point rounding). */
  function MetricsFor(width: real, height: real): (m: Metrics)
    ensures m.width == width && m.height == height
    ensures width > 0.0 ==> m.fontHeight > 0.0 && m.margin > 0.0 && m.padding > 0.0
    ensures width > 0.0 ==> m.lineSpacing > 2.0 * m.padding && m.titleBarHeight > m.titleFontHeight > 0.0
  {
    var fontHeight := 14.0 * width / BaseWidth;
    var margin := 4.0 * width / BaseWidth;
    var padding := 4.0 * width / BaseWidth;
    var titleFontHeight := padding + fontHeight + padding;
    var titleBarHeight := margin * 2.0 + titleFontHeight + margin * 2.0;
    var lineSpacing := (margin + padding + fontHeight + padding + margin) / 2.0;
    Metrics(width, height, fontHeight, margin, padding, titleFontHeight, titleBarHeight, lineSpacing)
  }

  /** Every spacing value is a fixed multiple of the canvas width, so scaling the
      canvas scales the layout by the same factor. */
  lemma MetricsScale(width: real, height: real, k: real)
    ensures var m := MetricsFor(width, height);
      var s := MetricsFor(k * width, height);
      && s.fontHeight == k * m.fontHeight && s.margin == k * m.margin
      && s.padding == k * m.padding && s.titleBarHeight == k * m.titleBarHeight
      && s.lineSpacing == k * m.lineSpacing
  {
  }

  /** `n * unit` for a whole number `n` of layout units (a count of lines times
      the line spacing), written as `n` additions of `unit` so that the layout
      proofs stay in linear arithmetic; `TimesIsProduct` ties it to the product. */
  function Times(n: nat, unit: real): real
  {
    if n == 0 then 0.0 else Times(n - 1, unit) + unit
  }

  lemma {:induction false} TimesIsProduct(n: nat, unit: real)
    ensures Times(n, unit) == n as real * unit
  {
    if n > 0 {
      TimesIsProduct(n - 1, unit);
    }
  }

  /** `(a + b) * unit == a * unit + b * unit`. */
  lemma {:induction false} TimesAdd(a: nat, b: nat, unit: real)
    ensures Times(a + b, unit) == Times(a, unit) + Times(b, unit)
    decreases b
  {
    if b > 0 {
      TimesAdd(a, b - 1, unit);
    }
  }

  /** With a non-negative unit, more units never measure less. */
  lemma {:induction false} TimesMonotone(a: nat, b: nat, unit: real)
    requires a <= b && unit >= 0.0
    ensures 0.0 <= Times(a, unit) <= Times(b, unit)
    decreases b
  {
    if b > 0 {
      if a < b {
        TimesMonotone(a, b - 1, unit);
      } else {
        TimesMonotone(a - 1, b - 1, unit);
      }
    }
  }

  /** The first two calls of every frame: clear and fill the background. */
  function Background(m: Metrics): seq<Command>
  {
    [ClearRect(0.0, 0.0, m.width, m.height), FillRect(0.0, 0.0, m.width, m.height, BackgroundColor)]
  }

  /** The frame `draw` paints while an error is set, as written (chat.js:154-163,
      chats.js:49-58): background, then the error text at the top-left corner,
      and nothing else. The text is filled with the fill style still in effect,
      which is the background colour. */
  function ErrorFrameAsWritten(m: Metrics, error: string): (cmds: seq<Command>)
    ensures |cmds| == 3 && cmds[..2] == Background(m)
  {
    Background(m) + [FillText("ERROR: " + error, 0.0, 0.0, BackgroundColor, Left)]
  }

  /** As written, the error text has the colour of the rectangle under it. */
  lemma ErrorTextInvisible(m: Metrics, error: string)
    ensures var cmds := ErrorFrameAsWritten(m, error);
      cmds[2].FillText? && cmds[1].FillRect? && cmds[2].fill == cmds[1].fill
  {
  }

  /** The error frame with the text in the font colour. */
  function ErrorFrame(m: Metrics, error: string): (cmds: seq<Command>)
    ensures |cmds| == 3 && cmds[..2] == Background(m)
  {
    Background(m) + [FillText("ERROR: " + error, 0.0, 0.0, FontColor, Left)]
  }

  /** The error text shows: its colour differs from the background's, and it
      says what the error is. */
  lemma ErrorTextVisible(m: Metrics, error: string)
    ensures var cmds := ErrorFrame(m, error);
      && cmds[2].FillText? && cmds[1].FillRect? && cmds[2].fill != cmds[1].fill
      && cmds[2].text == "ERROR: " + error
  {
  }

  /** The title bar: a filled strip across the top and the title inside it. */
  function TitleBar(m: Metrics, title: string): seq<Command>
  {
    [FillRect(0.0, 0.0, m.width, m.titleBarHeight, TitleBarColor),
     FillText(title, m.margin * 2.0, m.margin * 2.0, FontColor, Left)]
  }
}
