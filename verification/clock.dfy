/**
 * The four-digit mm:ss clocks (elapsed time and track duration).
 *
 * A clock keeps its value as four separate digit fields.  `Split` is the
 * decomposition `set_time` performs and `Tick` the ripple-carry increment
 * `update` performs; both are specified against the number of seconds the
 * digits stand for.
 */
module Clock {
  import opened Display

  /** Minutes tens, minutes ones, seconds tens, seconds ones. */
  datatype Digits = Digits(min10: int, min1: int, sec10: int, sec1: int)

  /** The number of seconds a digit tuple stands for. */
  function Seconds(d: Digits): int {
    600 * d.min10 + 60 * d.min1 + 10 * d.sec10 + d.sec1
  }

  /**
   * The three lower digits are within their carry radix (10, 6, 10).
   * The minutes-tens digit has no carry and so no bound.
   */
  predicate Canonical(d: Digits) {
    0 <= d.min1 <= 9 && 0 <= d.sec10 <= 5 && 0 <= d.sec1 <= 9
  }

  /** An index Python accepts into the ten-entry glyph table (negative indices count from the end). */
  predicate GlyphIndex(n: int) {
    -10 <= n <= 9
  }

  /** Pixel (dx, dy) of the glyph Python selects for index `n` (negative indices count from the end). */
  function GlyphPixel(n: int, dx: int, dy: int): bool
    requires GlyphIndex(n) && 0 <= dx < NUM_CHAR_WIDTH - 1 && 0 <= dy < NUM_CHAR_HEIGHT
  {
    NUM_CHAR[n % 10][dy][dx] == 1
  }

  /** Every digit can be looked up in the glyph table. */
  predicate Drawable(d: Digits) {
    Canonical(d) && GlyphIndex(d.min10)
  }

  /**
   * `set_time`: divmod by 60, then each part by 10.  Python's floor division
   * and Dafny's Euclidean division agree for a positive divisor, so this is
   * exact for every whole number of seconds, negative ones included.
   */
  function Split(secs: int): (d: Digits)
    ensures Canonical(d)
    ensures Seconds(d) == secs
  {
    var m, s := secs / 60, secs % 60;
    Digits(m / 10, m % 10, s / 10, s % 10)
  }

  /** True when an increment carries all the way into the minutes-tens digit. */
  predicate CarriesIntoMinuteTens(d: Digits) {
    d.sec1 + 1 == 10 && d.sec10 + 1 == 6 && d.min1 + 1 == 10
  }

  /** `update`: add one second, carrying at 10, 6 and 10; minutes-tens never wraps. */
  function Tick(d: Digits): (r: Digits)
    ensures Canonical(d) ==> Canonical(r) && Seconds(r) == Seconds(d) + 1
    ensures r.min10 != d.min10 <==> CarriesIntoMinuteTens(d)
  {
    if d.sec1 + 1 != 10 then d.(sec1 := d.sec1 + 1)
    else if d.sec10 + 1 != 6 then d.(sec1 := 0, sec10 := d.sec10 + 1)
    else if d.min1 + 1 != 10 then d.(sec1 := 0, sec10 := 0, min1 := d.min1 + 1)
    else Digits(d.min10 + 1, 0, 0, 0)
  }

  /** The canonical digits of a number of seconds are the ones `Split` computes. */
  lemma {:induction false} SplitOfSeconds(d: Digits)
    requires Canonical(d)
    ensures Split(Seconds(d)) == d
  {
    var m := 10 * d.min10 + d.min1;
    var s := 10 * d.sec10 + d.sec1;
    assert Seconds(d) == 60 * m + s;
    DivModUnique(Seconds(d), 60, m, s);
    DivModUnique(m, 10, d.min10, d.min1);
    DivModUnique(s, 10, d.sec10, d.sec1);
  }

  lemma {:induction false} DivModUnique(n: int, k: int, q: int, r: int)
    requires k == 10 || k == 60
    requires 0 <= r < k && n == k * q + r
    ensures n / k == q && n % k == r
  {
    if k == 10 {
      assert n == 10 * q + r;
    } else {
      assert n == 60 * q + r;
    }
  }

  /** Two canonical clocks showing the same number of seconds have the same digits. */
  lemma {:induction false} CanonicalUnique(a: Digits, b: Digits)
    requires Canonical(a) && Canonical(b) && Seconds(a) == Seconds(b)
    ensures a == b
  {
    SplitOfSeconds(a);
    SplitOfSeconds(b);
  }

  /** `update` after `set_time(t)` gives the same digits as `set_time(t + 1)`. */
  lemma {:induction false} TickIsNextSecond(secs: int)
    ensures Tick(Split(secs)) == Split(secs + 1)
  {
    CanonicalUnique(Tick(Split(secs)), Split(secs + 1));
  }

  /** 0:59 becomes 1:00. */
  lemma MinuteCarry()
    ensures Tick(Digits(0, 0, 5, 9)) == Digits(0, 1, 0, 0)
  {
  }

  /** `set_time` gives drawable digits exactly for -100:00 <= t < 100:00. */
  lemma {:induction false} SplitDrawable(secs: int)
    ensures Drawable(Split(secs)) <==> -6000 <= secs < 6000
  {
    var d := Split(secs);
    assert secs == 600 * d.min10 + (60 * d.min1 + 10 * d.sec10 + d.sec1);
    assert 0 <= 60 * d.min1 + 10 * d.sec10 + d.sec1 < 600;
  }

  /** One second after 99:59 the minutes-tens digit is 10, which has no glyph. */
  lemma {:induction false} OverflowAtHundredMinutes()
    ensures Drawable(Split(5999)) && Split(5999) == Digits(9, 9, 5, 9)
    ensures Tick(Split(5999)) == Digits(10, 0, 0, 0) && !Drawable(Tick(Split(5999)))
  {
    SplitOfSeconds(Digits(9, 9, 5, 9));
  }

  /** A clock drawn on the LCD at a fixed position, as five character cells `mm:ss`. */
  class Time {
    const posX: int
    const posY: int
    var min10: int
    var min1: int
    var sec10: int
    var sec1: int

    function Value(): Digits
      reads this
    {
      Digits(min10, min1, sec10, sec1)
    }

    /** All five character cells lie on the panel. */
    predicate Placed() {
      0 <= posX && posX + NUM_CHAR_WIDTH * 5 - 1 <= WIDTH &&
      0 <= posY && posY + NUM_CHAR_HEIGHT <= HEIGHT
    }

    ghost predicate Valid()
      reads this
    {
      Placed() && Canonical(Value())
    }

    /** Pixel (x, y) belongs to character cell `col`. */
    predicate InCell(col: int, x: int, y: int) {
      posX + NUM_CHAR_WIDTH * col <= x < posX + NUM_CHAR_WIDTH * col + NUM_CHAR_WIDTH - 1 &&
      posY <= y < posY + NUM_CHAR_HEIGHT
    }

    /** Pixel (x, y) belongs to the clock's area. */
    predicate InClock(x: int, y: int) {
      posX <= x < posX + NUM_CHAR_WIDTH * 5 - 1 && posY <= y < posY + NUM_CHAR_HEIGHT
    }

    /** Character cell `col` holds exactly the bitmap `g`. */
    ghost predicate ShowsGlyph(lcd: array2<bool>, col: int, g: Glyph)
      reads lcd
      requires IsLcd(lcd) && Placed() && 0 <= col <= 4
    {
      forall x, y | InCell(col, x, y) ::
        lcd[x, y] == (g[y - posY][x - posX - NUM_CHAR_WIDTH * col] == 1)
    }

    /** Character cell `col` holds the glyph Python looks up for index `n`. */
    ghost predicate ShowsDigit(lcd: array2<bool>, col: int, n: int)
      reads lcd
      requires IsLcd(lcd) && Placed() && 0 <= col <= 4 && GlyphIndex(n)
    {
      forall x, y | InCell(col, x, y) ::
        lcd[x, y] == GlyphPixel(n, x - posX - NUM_CHAR_WIDTH * col, y - posY)
    }

    ghost predicate ShowsColon(lcd: array2<bool>)
      reads lcd
      requires IsLcd(lcd) && Placed()
    {
      lcd[posX + NUM_CHAR_WIDTH * 2 + 2, posY + 1] && lcd[posX + NUM_CHAR_WIDTH * 2 + 2, posY + 5]
    }

    /** The LCD shows `d` as mm:ss at this clock's position. */
    ghost predicate Shows(lcd: array2<bool>, d: Digits)
      reads lcd
      requires IsLcd(lcd) && Placed() && Drawable(d)
    {
      ShowsDigit(lcd, 0, d.min10) && ShowsDigit(lcd, 1, d.min1) && ShowsColon(lcd) &&
      ShowsDigit(lcd, 3, d.sec10) && ShowsDigit(lcd, 4, d.sec1)
    }

    constructor (x: int, y: int)
      requires 0 <= x && x + NUM_CHAR_WIDTH * 5 - 1 <= WIDTH
      requires 0 <= y && y + NUM_CHAR_HEIGHT <= HEIGHT
      ensures Valid() && posX == x && posY == y
      ensures Value() == Digits(0, 0, 0, 0)
    {
      posX, posY := x, y;
      min10, min1, sec10, sec1 := 0, 0, 0, 0;
    }

    /** Draws glyph `n` into character cell `col`, and nothing else. */
    method WriteNumber(lcd: array2<bool>, col: int, n: int)
      requires IsLcd(lcd) && Placed() && 0 <= col <= 4 && GlyphIndex(n)
      modifies lcd
      ensures ShowsDigit(lcd, col, n)
      ensures forall x, y | 0 <= x < WIDTH && 0 <= y < HEIGHT && !InCell(col, x, y) ::
        lcd[x, y] == old(lcd[x, y])
      ensures forall c, m | 0 <= c <= 4 && c != col && GlyphIndex(m) ::
        old(ShowsDigit(lcd, c, m)) ==> ShowsDigit(lcd, c, m)
      ensures col != 2 && old(ShowsColon(lcd)) ==> ShowsColon(lcd)
      ensures forall x, y | 0 <= x < WIDTH && 0 <= y < HEIGHT && !InClock(x, y) ::
        lcd[x, y] == old(lcd[x, y])
    {
      // Python indexes the tuple with n; a negative n counts from the end.
      WriteGlyph(lcd, col, NUM_CHAR[n % 10]);
    }

    /** The pixel loops of `_write_number`, for the bitmap it looked up. */
    method WriteGlyph(lcd: array2<bool>, col: int, glyph: Glyph)
      requires IsLcd(lcd) && Placed() && 0 <= col <= 4
      modifies lcd
      ensures ShowsGlyph(lcd, col, glyph)
      ensures forall x, y | 0 <= x < WIDTH && 0 <= y < HEIGHT && !InCell(col, x, y) ::
        lcd[x, y] == old(lcd[x, y])
    {
      var left := posX + NUM_CHAR_WIDTH * col;
      for dy := 0 to NUM_CHAR_HEIGHT
        invariant forall x, y | InCell(col, x, y) && y < posY + dy ::
          lcd[x, y] == (glyph[y - posY][x - left] == 1)
        invariant forall x, y | 0 <= x < WIDTH && 0 <= y < HEIGHT && !(InCell(col, x, y) && y < posY + dy) ::
          lcd[x, y] == old(lcd[x, y])
      {
        for dx := 0 to NUM_CHAR_WIDTH - 1
          invariant forall x, y | InCell(col, x, y) && (y < posY + dy || (y == posY + dy && x < left + dx)) ::
            lcd[x, y] == (glyph[y - posY][x - left] == 1)
          invariant forall x, y | 0 <= x < WIDTH && 0 <= y < HEIGHT &&
                                  !(InCell(col, x, y) && (y < posY + dy || (y == posY + dy && x < left + dx))) ::
            lcd[x, y] == old(lcd[x, y])
        {
          lcd[left + dx, posY + dy] := glyph[dy][dx] == 1;
        }
      }
    }

    /** Lights the two dots of the colon in character cell `col`. */
    method WriteColon(lcd: array2<bool>, col: int)
      requires IsLcd(lcd) && Placed() && 0 <= col <= 4
      modifies lcd
      ensures lcd[posX + NUM_CHAR_WIDTH * col + 2, posY + 1] && lcd[posX + NUM_CHAR_WIDTH * col + 2, posY + 5]
      ensures forall x, y | 0 <= x < WIDTH && 0 <= y < HEIGHT &&
                            !(x == posX + NUM_CHAR_WIDTH * col + 2 && (y == posY + 1 || y == posY + 5)) ::
        lcd[x, y] == old(lcd[x, y])
    {
      lcd[posX + NUM_CHAR_WIDTH * col + 2, posY + 1] := true;
      lcd[posX + NUM_CHAR_WIDTH * col + 2, posY + 5] := true;
    }

    /** Draws the whole clock; the LCD outside the clock is untouched. */
    method Draw(lcd: array2<bool>)
      requires Valid() && IsLcd(lcd) && Drawable(Value())
      modifies lcd
      ensures Shows(lcd, Value())
      ensures forall x, y | 0 <= x < WIDTH && 0 <= y < HEIGHT && !InClock(x, y) ::
        lcd[x, y] == old(lcd[x, y])
    {
      WriteNumber(lcd, 0, min10);
      WriteNumber(lcd, 1, min1);
      WriteColon(lcd, 2);
      WriteNumber(lcd, 3, sec10);
      WriteNumber(lcd, 4, sec1);
    }

    /** `set_time` applied to a number of seconds already truncated to an integer. */
    method SetTime(secs: int)
      requires Valid()
      modifies this
      ensures Valid() && Value() == Split(secs)
    {
      var m := secs / 60;
      var s := secs % 60;
      min10, min1 := m / 10, m % 10;
      sec10, sec1 := s / 10, s % 10;
    }

    /**
     * One second passes.  Only the digits that change are redrawn, so a clock
     * that was showing its value before still shows it afterwards.
     */
    method Update(lcd: array2<bool>)
      requires Valid() && IsLcd(lcd)
      requires CarriesIntoMinuteTens(Value()) ==> GlyphIndex(min10 + 1)
      modifies this, lcd
      ensures Valid() && Value() == Tick(old(Value()))
      ensures old(Drawable(Value()) && Shows(lcd, Value())) ==> Drawable(Value()) && Shows(lcd, Value())
      ensures forall x, y | 0 <= x < WIDTH && 0 <= y < HEIGHT && !InClock(x, y) ::
        lcd[x, y] == old(lcd[x, y])
    {
      sec1 := sec1 + 1;
      if sec1 == 10 {
        sec1 := 0;
        WriteNumber(lcd, 4, sec1);
        sec10 := sec10 + 1;
        if sec10 == 6 {
          sec10 := 0;
          WriteNumber(lcd, 3, sec10);
          min1 := min1 + 1;
          if min1 == 10 {
            min1 := 0;
            WriteNumber(lcd, 1, min1);
            min10 := min10 + 1;
            WriteNumber(lcd, 0, min10);
          } else {
            WriteNumber(lcd, 1, min1);
          }
        } else {
          WriteNumber(lcd, 3, sec10);
        }
      } else {
        WriteNumber(lcd, 4, sec1);
      }
    }
  }
}
