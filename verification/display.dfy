/**
 * Fixed configuration of the 128x64 monochrome panel and the 5x7 digit font
 * used by the elapsed and duration clocks.
 *
 * The LCD frame buffer is modelled as an `array2<bool>` indexed `[x, y]`,
 * `x` the column and `y` the row, `true` for a lit pixel.
 */
module Display {

  const WIDTH := 128
  const HEIGHT := 64
  const FONT_SIZE := 16
  const BAR_SIZE := 5
  const NUM_CHAR_WIDTH := 6
  const NUM_CHAR_HEIGHT := 7

  type Bit = b: int | 0 <= b <= 1

  /** One row of a digit glyph: the glyph is drawn NUM_CHAR_WIDTH - 1 pixels wide. */
  type GlyphRow = r: seq<Bit> | |r| == NUM_CHAR_WIDTH - 1 witness [0, 0, 0, 0, 0]

  const BLANK_ROW: GlyphRow := [0, 0, 0, 0, 0]

  type Glyph = g: seq<GlyphRow> | |g| == NUM_CHAR_HEIGHT
    witness [BLANK_ROW, BLANK_ROW, BLANK_ROW, BLANK_ROW, BLANK_ROW, BLANK_ROW, BLANK_ROW]

  /** The bitmaps of the digits 0 to 9, in that order. */
  const NUM_CHAR: seq<Glyph> := [
    [[0, 1, 1, 1, 0], [1, 0, 0, 0, 1], [1, 0, 0, 1, 1], [1, 0, 1, 0, 1],
     [1, 1, 0, 0, 1], [1, 0, 0, 0, 1], [0, 1, 1, 1, 0]],
    [[0, 0, 1, 0, 0], [0, 1, 1, 0, 0], [0, 0, 1, 0, 0], [0, 0, 1, 0, 0],
     [0, 0, 1, 0, 0], [0, 0, 1, 0, 0], [0, 1, 1, 1, 0]],
    [[0, 1, 1, 1, 0], [1, 0, 0, 0, 1], [0, 0, 0, 0, 1], [0, 0, 0, 1, 0],
     [0, 0, 1, 0, 0], [0, 1, 0, 0, 0], [1, 1, 1, 1, 1]],
    [[1, 1, 1, 1, 1], [0, 0, 0, 1, 0], [0, 0, 1, 0, 0], [0, 0, 0, 1, 0],
     [0, 0, 0, 0, 1], [1, 0, 0, 0, 1], [0, 1, 1, 1, 0]],
    [[0, 0, 0, 1, 0], [0, 0, 1, 1, 0], [0, 1, 0, 1, 0], [1, 0, 0, 1, 0],
     [1, 1, 1, 1, 1], [0, 0, 0, 1, 0], [0, 0, 0, 1, 0]],
    [[1, 1, 1, 1, 1], [1, 0, 0, 0, 0], [1, 1, 1, 1, 0], [0, 0, 0, 0, 1],
     [0, 0, 0, 0, 1], [1, 0, 0, 0, 1], [0, 1, 1, 1, 0]],
    [[0, 0, 1, 1, 0], [0, 1, 0, 0, 0], [1, 0, 0, 0, 0], [1, 1, 1, 1, 0],
     [1, 0, 0, 0, 1], [1, 0, 0, 0, 1], [0, 1, 1, 1, 0]],
    [[1, 1, 1, 1, 1], [0, 0, 0, 0, 1], [0, 0, 0, 1, 0], [0, 0, 1, 0, 0],
     [0, 1, 0, 0, 0], [0, 1, 0, 0, 0], [0, 1, 0, 0, 0]],
    [[0, 1, 1, 1, 0], [1, 0, 0, 0, 1], [1, 0, 0, 0, 1], [0, 1, 1, 1, 0],
     [1, 0, 0, 0, 1], [1, 0, 0, 0, 1], [0, 1, 1, 1, 0]],
    [[0, 1, 1, 1, 0], [1, 0, 0, 0, 1], [1, 0, 0, 0, 1], [0, 1, 1, 1, 1],
     [0, 0, 0, 0, 1], [0, 0, 0, 1, 0], [0, 1, 1, 0, 0]]
  ]

  /** The frame buffer has the panel's dimensions. */
  predicate IsLcd(lcd: array2<bool>) {
    lcd.Length0 == WIDTH && lcd.Length1 == HEIGHT
  }
}
