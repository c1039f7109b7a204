/**
 * A one-line text field (title, artist or album) that is either centred on
 * the panel or, when wider than the panel, scrolled through horizontally.
 *
 * Font metrics and rasterisation belong to the font library; they enter the
 * model as the two functions of a `Font`.
 */
module TextField {
  import opened Display

  /**
   * `width(t)` is the rendered width of `t`; `ink(t, indent, x, y)` is pixel
   * (x, y) of a strip on which `t` was drawn with its left edge at `indent`.
   */
  datatype Font = Font(width: string -> nat, ink: (string, real, int, int) -> bool)

  /** The value `draw` stores as the scrollable width for a text `w` pixels wide. */
  function ScrollableWidth(w: nat): (r: nat)
    ensures r != 0 <==> w > WIDTH
    ensures r != 0 ==> r == w
  {
    if w > WIDTH then w else 0
  }

  /** Width of the strip `draw` renders into: padded by one panel width when scrolling. */
  function StripWidth(w: nat): (r: nat)
    ensures r == ScrollableWidth(w) + WIDTH
    ensures w <= r
  {
    if w > WIDTH then w + WIDTH else WIDTH
  }

  /** Horizontal position of the text on its strip: centred when narrower than the panel. */
  function Indent(w: nat): (r: real)
    ensures 0.0 <= r
    ensures w <= WIDTH ==> r + w as real + r == WIDTH as real
    ensures w >= WIDTH ==> r == 0.0
  {
    if w < WIDTH then (WIDTH - w) as real / 2.0 else 0.0
  }

  /** Every panel-wide window whose offset is a reachable scroll offset lies inside the strip. */
  lemma WindowInStrip(w: nat, offset: int, x: int)
    requires 0 <= offset <= ScrollableWidth(w) && 0 <= x < WIDTH
    ensures 0 <= x + offset < StripWidth(w)
    ensures w <= WIDTH ==> offset == 0
  {
  }

  /** The offset after one `scroll` step. */
  function NextOffset(offset: int, scrollable: nat): (r: nat)
    ensures 0 <= offset <= scrollable ==> r <= scrollable
    ensures 0 <= offset < scrollable ==> r == offset + 1
    ensures offset == scrollable ==> r == 0
  {
    (offset + 1) % (scrollable + 1)
  }

  /** The offset reached after `n` scroll steps starting from offset 0 (as `draw` leaves it). */
  function OffsetAfter(n: nat, scrollable: nat): nat {
    if n == 0 then 0 else NextOffset(OffsetAfter(n - 1, scrollable), scrollable)
  }

  /** Starting from 0, the first `scrollable` steps count the offset up one pixel at a time. */
  lemma {:induction false} OffsetCountsUp(scrollable: nat, n: nat)
    requires n <= scrollable
    ensures OffsetAfter(n, scrollable) == n
  {
    if n > 0 {
      OffsetCountsUp(scrollable, n - 1);
    }
  }

  /** Every offset reached by scrolling is a valid window start. */
  lemma {:induction false} OffsetInRange(scrollable: nat, n: nat)
    ensures OffsetAfter(n, scrollable) <= scrollable
  {
    if n > 0 {
      OffsetInRange(scrollable, n - 1);
    }
  }

  /**
   * Scrolling is periodic: the offset is back at 0 after exactly
   * `scrollable + 1` steps and not before, and repeats from there.
   */
  lemma {:induction false} ScrollPeriod(scrollable: nat, n: nat)
    ensures OffsetAfter(scrollable + 1, scrollable) == 0
    ensures 0 < n <= scrollable ==> OffsetAfter(n, scrollable) != 0
    ensures OffsetAfter(n + scrollable + 1, scrollable) == OffsetAfter(n, scrollable)
  {
    OffsetCountsUp(scrollable, scrollable);
    if n <= scrollable {
      OffsetCountsUp(scrollable, n);
    }
    if n > 0 {
      ScrollPeriod(scrollable, n - 1);
    }
  }

  /** A field that does not scroll stays at offset 0. */
  lemma {:induction false} NoScrollStaysPut(n: nat)
    ensures OffsetAfter(n, 0) == 0
  {
    if n > 0 {
      NoScrollStaysPut(n - 1);
    }
  }

  class Text {
    const posY: int
    const font: Font
    var text: string
    var scrollable: nat
    var scrolled: nat
    /** The rendered strip, column by column; every column is FONT_SIZE pixels tall. */
    var image: seq<seq<bool>>

    ghost predicate Valid()
      reads this
    {
      0 <= posY && posY + FONT_SIZE <= HEIGHT &&
      (scrollable == 0 || scrollable > WIDTH) &&
      scrolled <= scrollable &&
      |image| == StripWidth(scrollable) &&
      forall x | 0 <= x < |image| :: |image[x]| == FONT_SIZE
    }

    predicate IsScrollable()
      reads this
      ensures Valid() ==> (IsScrollable() <==> scrollable > WIDTH)
    {
      scrollable != 0
    }

    /** A field that does not scroll is never scrolled away from offset 0. */
    predicate IsScrolled()
      reads this
      ensures Valid() && IsScrolled() ==> IsScrollable()
    {
      scrolled != 0
    }

    /** Rows `posY .. posY + FONT_SIZE - 1` of the LCD show the panel-wide window at the current offset. */
    ghost predicate ShowsWindow(lcd: array2<bool>)
      reads this, lcd
      requires Valid() && IsLcd(lcd)
    {
      forall x, y | 0 <= x < WIDTH && posY <= y < posY + FONT_SIZE ::
        lcd[x, y] == image[x + scrolled][y - posY]
    }

    /** The field's rows of the LCD. */
    predicate InField(y: int) {
      posY <= y < posY + FONT_SIZE
    }

    constructor (y: int, font: Font, t: string)
      requires 0 <= y && y + FONT_SIZE <= HEIGHT
      ensures Valid() && posY == y && this.font == font && text == t
      ensures scrollable == 0 && scrolled == 0
    {
      posY, this.font, text := y, font, t;
      scrollable, scrolled := 0, 0;
      // Before the first `draw` there is no strip; a blank panel-wide one stands in for it.
      image := seq(WIDTH, x => seq(FONT_SIZE, y => false));
    }

    method SetText(t: string)
      modifies this`text
      ensures text == t
    {
      text := t;
    }

    /**
     * Renders the text into a fresh strip and shows it from offset 0.
     * The field scrolls exactly when the text is wider than the panel.
     */
    method Draw(lcd: array2<bool>)
      requires Valid() && IsLcd(lcd)
      modifies this`scrolled, this`scrollable, this`image, lcd
      ensures Valid() && scrolled == 0
      ensures IsScrollable() <==> font.width(text) > WIDTH
      ensures IsScrollable() ==> scrollable == font.width(text)
      ensures |image| == StripWidth(font.width(text))
      ensures forall x, y | 0 <= x < |image| && 0 <= y < FONT_SIZE ::
        image[x][y] == font.ink(text, Indent(font.width(text)), x, y)
      ensures ShowsWindow(lcd)
      ensures forall x, y | 0 <= x < WIDTH && 0 <= y < HEIGHT && !InField(y) ::
        lcd[x, y] == old(lcd[x, y])
    {
      scrolled := 0;
      var w := font.width(text);
      var stripWidth := w;
      var indent := 0.0;
      if w > WIDTH {
        scrollable := w;
        stripWidth := w + WIDTH;
      } else if w < WIDTH {
        scrollable := 0;
        indent := (WIDTH - w) as real / 2.0;
        stripWidth := WIDTH;
      } else {
        scrollable := 0;
      }
      var t := text;
      image := seq(stripWidth, x => seq(FONT_SIZE, y => font.ink(t, indent, x, y)));
      ShowWindow(lcd);
    }

    /** Advances the offset by one, wrapping after `scrollable`, and shows the new window. */
    method Scroll(lcd: array2<bool>)
      requires Valid() && IsLcd(lcd)
      modifies this`scrolled, lcd
      ensures Valid() && scrolled == NextOffset(old(scrolled), scrollable)
      ensures !IsScrollable() ==> scrolled == 0
      ensures ShowsWindow(lcd)
      ensures forall x, y | 0 <= x < WIDTH && 0 <= y < HEIGHT && !InField(y) ::
        lcd[x, y] == old(lcd[x, y])
    {
      scrolled := (scrolled + 1) % (scrollable + 1);
      ShowWindow(lcd);
    }

    /** The pixel loops shared by `draw` and `scroll`: copy the window at the current offset. */
    method ShowWindow(lcd: array2<bool>)
      requires Valid() && IsLcd(lcd)
      modifies lcd
      ensures ShowsWindow(lcd)
      ensures forall x, y | 0 <= x < WIDTH && 0 <= y < HEIGHT && !InField(y) ::
        lcd[x, y] == old(lcd[x, y])
    {
      for dy := 0 to FONT_SIZE
        invariant forall x, y | 0 <= x < WIDTH && posY <= y < posY + dy ::
          lcd[x, y] == image[x + scrolled][y - posY]
        invariant forall x, y | 0 <= x < WIDTH && 0 <= y < HEIGHT && !(posY <= y < posY + dy) ::
          lcd[x, y] == old(lcd[x, y])
      {
        for x := 0 to WIDTH
          invariant forall x', y | 0 <= x' < WIDTH && (posY <= y < posY + dy || (y == posY + dy && x' < x)) ::
            lcd[x', y] == image[x' + scrolled][y - posY]
          invariant forall x', y | 0 <= x' < WIDTH && 0 <= y < HEIGHT &&
                                   !(posY <= y < posY + dy || (y == posY + dy && x' < x)) ::
            lcd[x', y] == old(lcd[x', y])
        {
          lcd[x, posY + dy] := image[x + scrolled][dy];
        }
      }
    }
  }
}
