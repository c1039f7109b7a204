/**
 * The progress bar: a one-pixel border around BAR_SIZE rows whose inner
 * columns 1 .. WIDTH - 2 are lit from the left up to the current progress.
 */
module Progress {
  import opened Display

  class ProgressBar {
    const posY: int
    var progress: int

    /** The border rows posY and posY + BAR_SIZE + 1 lie on the panel. */
    predicate Placed() {
      0 <= posY && posY + BAR_SIZE + 1 < HEIGHT
    }

    /** Row `y` is one of the bar's inner rows. */
    predicate InBar(y: int) {
      posY + 1 <= y <= posY + BAR_SIZE
    }

    /** The inner area shows progress `p`: columns 1..p lit, columns p+1..WIDTH-2 dark. */
    ghost predicate Shows(lcd: array2<bool>, p: int)
      reads lcd
      requires IsLcd(lcd) && Placed()
    {
      forall x, y | 1 <= x <= WIDTH - 2 && InBar(y) :: lcd[x, y] == (x <= p)
    }

    /** The frame around the bar is lit. */
    ghost predicate Framed(lcd: array2<bool>)
      reads lcd
      requires IsLcd(lcd) && Placed()
    {
      (forall x, y | 0 <= x < WIDTH && (y == posY || y == posY + BAR_SIZE + 1) :: lcd[x, y]) &&
      (forall x, y | (x == 0 || x == WIDTH - 1) && InBar(y) :: lcd[x, y])
    }

    /** Draws the frame; the inner area and the rest of the LCD are untouched. */
    constructor (y: int, lcd: array2<bool>)
      requires IsLcd(lcd) && 0 <= y && y + BAR_SIZE + 1 < HEIGHT
      modifies lcd
      ensures Placed() && posY == y && progress == 0
      ensures Framed(lcd)
      ensures forall x, y' | 0 <= x < WIDTH && 0 <= y' < HEIGHT &&
                             !(y' == y || y' == y + BAR_SIZE + 1 || (InBar(y') && (x == 0 || x == WIDTH - 1))) ::
        lcd[x, y'] == old(lcd[x, y'])
    {
      posY := y;
      progress := 0;
      new;
      for x := 0 to WIDTH
        modifies lcd
        invariant forall x', y' | 0 <= x' < x && (y' == posY || y' == posY + BAR_SIZE + 1) :: lcd[x', y']
        invariant forall x', y' | 0 <= x' < WIDTH && 0 <= y' < HEIGHT &&
                                  !((y' == posY || y' == posY + BAR_SIZE + 1) && x' < x) ::
          lcd[x', y'] == old(lcd[x', y'])
      {
        lcd[x, posY] := true;
        lcd[x, posY + BAR_SIZE + 1] := true;
      }
      for dy := 0 to BAR_SIZE
        modifies lcd
        invariant forall x', y' | 0 <= x' < WIDTH && (y' == posY || y' == posY + BAR_SIZE + 1) :: lcd[x', y']
        invariant forall x', y' | (x' == 0 || x' == WIDTH - 1) && posY + 1 <= y' <= posY + dy :: lcd[x', y']
        invariant forall x', y' | 0 <= x' < WIDTH && 0 <= y' < HEIGHT &&
                                  !(y' == posY || y' == posY + BAR_SIZE + 1 ||
                                    (posY + 1 <= y' <= posY + dy && (x' == 0 || x' == WIDTH - 1))) ::
          lcd[x', y'] == old(lcd[x', y'])
      {
        lcd[0, posY + dy + 1] := true;
        lcd[WIDTH - 1, posY + dy + 1] := true;
      }
    }

    method SetProgress(p: int)
      modifies this`progress
      ensures progress == p
    {
      progress := p;
    }

    /**
     * Redraws the inner area for the current progress.  Every pixel written
     * is on the panel when 0 <= progress < WIDTH; progress WIDTH - 1 also
     * relights the right border column.
     */
    method Draw(lcd: array2<bool>)
      requires IsLcd(lcd) && Placed() && 0 <= progress < WIDTH
      modifies lcd
      ensures Shows(lcd, progress)
      ensures forall x, y | 0 <= x < WIDTH && 0 <= y < HEIGHT ::
        lcd[x, y] == if InBar(y) && 1 <= x <= progress then true
                     else if InBar(y) && progress < x <= WIDTH - 2 then false
                     else old(lcd[x, y])
    {
      for dy := 0 to BAR_SIZE
        invariant forall x, y | 0 <= x < WIDTH && 0 <= y < HEIGHT ::
          lcd[x, y] == if posY + 1 <= y <= posY + dy && 1 <= x <= progress then true else old(lcd[x, y])
      {
        for x := 0 to progress
          invariant forall x', y | 0 <= x' < WIDTH && 0 <= y < HEIGHT ::
            lcd[x', y] == if (posY + 1 <= y <= posY + dy || (y == posY + dy + 1 && x' <= x)) && 1 <= x' <= progress
                          then true else old(lcd[x', y])
        {
          lcd[x + 1, posY + dy + 1] := true;
        }
      }
      for dy := 0 to BAR_SIZE
        invariant forall x, y | 0 <= x < WIDTH && 0 <= y < HEIGHT ::
          lcd[x, y] == if InBar(y) && 1 <= x <= progress then true
                       else if posY + 1 <= y <= posY + dy && progress < x <= WIDTH - 2 then false
                       else old(lcd[x, y])
      {
        // range(progress, WIDTH - 2) is empty when progress >= WIDTH - 2
        var x := progress;
        while x < WIDTH - 2
          invariant progress <= x
          invariant forall x', y | 0 <= x' < WIDTH && 0 <= y < HEIGHT ::
            lcd[x', y] == if InBar(y) && 1 <= x' <= progress then true
                          else if (posY + 1 <= y <= posY + dy || (y == posY + dy + 1 && x' <= x)) &&
                                  progress < x' <= WIDTH - 2 then false
                          else old(lcd[x', y])
        {
          lcd[x + 1, posY + dy + 1] := false;
          x := x + 1;
        }
      }
    }

    /**
     * Advances by one column and lights just that column.  On a bar that was
     * showing its progress this leaves the same picture as `SetProgress`
     * followed by `Draw`.
     */
    method Update(lcd: array2<bool>)
      requires IsLcd(lcd) && Placed() && 0 <= progress + 1 < WIDTH
      modifies this`progress, lcd
      ensures progress == old(progress) + 1
      ensures old(Shows(lcd, progress)) ==> Shows(lcd, progress)
      ensures forall x, y | 0 <= x < WIDTH && 0 <= y < HEIGHT ::
        lcd[x, y] == if InBar(y) && x == progress then true else old(lcd[x, y])
    {
      progress := progress + 1;
      for dy := 0 to BAR_SIZE
        modifies lcd
        invariant forall x, y | 0 <= x < WIDTH && 0 <= y < HEIGHT ::
          lcd[x, y] == if posY + 1 <= y <= posY + dy && x == progress then true else old(lcd[x, y])
      {
        lcd[progress, posY + dy + 1] := true;
      }
    }
  }
}
