# gfxmpc panel model

A Dafny model of the sequential core of `gfxmpc.py`, a front end for the MPD
music player on a 128×64 gfxhat LCD with six touch keys. The display shows
three text fields: title, artist and album. Below them are a progress bar and
two `mm:ss` clocks for the elapsed time and the track duration.

- `display.dfy` holds the panel constants and the 5×7 digit glyph table `NUM_CHAR`. The LCD frame buffer is an `array2<bool>` indexed `[x, y]`.
- `clock.dfy` models the `Time` clock:
  - `Split` is the `divmod` decomposition of `set_time`.
  - `Tick` is the ripple-carry increment of `update`.
  - Both are specified against the number of seconds the four digits stand for.
  - The class `Time` draws the digits on the LCD.
- `text.dfy` models a `Text` field: its strip geometry, the scroll-offset successor and window copying. The font library's metrics and rasteriser enter as the two functions of a `Font`.
- `progress.dfy` models `ProgressBar`: its frame, its fill loops and its one-column `update`.
- `schedule.dfy` models the event schedulers that the four periodic tasks arm. Each scheduler keeps a queue of pending entries, and cancelling an entry that is no longer queued is a no-op.
- `player.dfy` models the main loop of `MPC.start`:
  - The `play`, `pause` and `stop` branches run on every player notification. They are written both as functions on a `Panel` value and as methods of the class `Mpc`, which updates its own fields and schedulers in place.
  - It also covers the clean-up after the connection is lost and the touch-key handlers.

## Model

| member | source | states |
|---|---|---|
| Clock.Split | gfxmpc.py:241-245 | `set_time` yields canonical digits (seconds ones and minutes ones ≤ 9, seconds tens ≤ 5) that stand for exactly the given number of seconds |
| Clock.Tick | gfxmpc.py:247-267 | `update` on canonical digits keeps them canonical and adds exactly one second; the minutes-tens digit changes iff the carry ripples through all three lower digits |
| Clock.SplitOfSeconds | gfxmpc.py:241-245 | `set_time` applied to the seconds of canonical digits gives back those digits |
| Clock.DivModUnique | gfxmpc.py:241-245 | a quotient and remainder in range for 10 or 60 are the ones `divmod` computes |
| Clock.CanonicalUnique | gfxmpc.py:241-245 | two canonical clocks that show the same number of seconds have the same digits |
| Clock.TickIsNextSecond | gfxmpc.py:247-267 | `update` after `set_time(t)` gives the digits of `set_time(t + 1)`, for every integer `t` |
| Clock.MinuteCarry | gfxmpc.py:247-267 | 0:59 becomes 1:00 |
| Clock.SplitDrawable | gfxmpc.py:241-245 | every digit `set_time(t)` produces is a valid index into the glyph table iff -6000 ≤ t < 6000 |
| Clock.OverflowAtHundredMinutes | gfxmpc.py:247-267 | 99:59 is drawable, and one `update` later the minutes-tens digit is 10, which has no glyph |
| Clock.Time.constructor | gfxmpc.py:217-223 | a new clock at (x, y) holds 00:00 |
| Clock.Time.WriteNumber | gfxmpc.py:225-228 | cell `col` shows the glyph Python selects for `n` (negative indices counted from the end); pixels outside the cell, and the other cells and the colon, are unchanged |
| Clock.Time.WriteGlyph | gfxmpc.py:225-228 | the nested loops copy the 5×7 bitmap into cell `col` and touch nothing else |
| Clock.Time.WriteColon | gfxmpc.py:230-232 | exactly the two colon pixels are lit |
| Clock.Time.Draw | gfxmpc.py:234-239 | the LCD shows the clock's digits as mm:ss and is unchanged outside the clock |
| Clock.Time.SetTime | gfxmpc.py:241-245 | the digit fields become `Split(secs)` |
| Clock.Time.Update | gfxmpc.py:247-267 | the digits become `Tick` of the old digits; a clock showing its value still shows it afterwards; nothing outside the clock changes |
| TextField.ScrollableWidth | gfxmpc.py:145-154 | the width `draw` stores is non-zero exactly for a text wider than the panel, and is then the text width |
| TextField.StripWidth | gfxmpc.py:145-154 | the strip `draw` renders is the scrollable width plus one panel width, so it holds the whole text |
| TextField.Indent | gfxmpc.py:147-151 | a text no wider than the panel is centred, with equal margins on both sides; a wider one starts at the left edge |
| TextField.WindowInStrip | gfxmpc.py:142-155 | every panel-wide window at a reachable offset lies inside the strip `draw` renders; a field no wider than the panel only has offset 0 |
| TextField.NextOffset | gfxmpc.py:175-176 | the `scroll` successor stays in 0..scrollable, counts up by one and wraps from `scrollable` to 0 |
| TextField.OffsetCountsUp | gfxmpc.py:175-176 | from offset 0, `n ≤ scrollable` scroll steps reach offset `n` |
| TextField.OffsetInRange | gfxmpc.py:175-176 | every offset reached by scrolling from 0 is at most `scrollable` |
| TextField.ScrollPeriod | gfxmpc.py:175-176 | the offset returns to 0 after exactly `scrollable + 1` steps and not earlier, then repeats with that period |
| TextField.NoScrollStaysPut | gfxmpc.py:175-176 | a field that does not scroll stays at offset 0 |
| TextField.Text.IsScrollable | gfxmpc.py:163-167 | on a valid field, `is_scrollable` holds iff the stored width exceeds the panel width |
| TextField.Text.IsScrolled | gfxmpc.py:169-173 | on a valid field, only a scrollable field can be scrolled away from offset 0 |
| TextField.Text.constructor | gfxmpc.py:135-140 | a new field holds its text, offset 0 and is not scrollable |
| TextField.Text.SetText | gfxmpc.py:183-184 | the text is replaced |
| TextField.Text.Draw | gfxmpc.py:142-161 | the offset is reset to 0; the field is scrollable iff the text is wider than the panel, with the text width as scrollable width; the strip is that width plus a panel width, or a panel width with the text centred; the LCD rows of the field show the window at offset 0; other rows are unchanged |
| TextField.Text.Scroll | gfxmpc.py:175-181 | the offset advances by `NextOffset`; a non-scrollable field stays at 0; the field rows show the new window and other rows are unchanged |
| TextField.Text.ShowWindow | gfxmpc.py:157-161 | the pixel loops copy the panel-wide window at the current offset into the field's rows and touch no other row |
| Progress.ProgressBar.constructor | gfxmpc.py:188-196 | progress 0; the top and bottom border rows and both border columns of the inner rows are lit; every other pixel is unchanged |
| Progress.ProgressBar.SetProgress | gfxmpc.py:206-207 | the progress is replaced |
| Progress.ProgressBar.Draw | gfxmpc.py:198-204 | inner rows: columns 1..progress lit and progress+1..WIDTH-2 dark; border columns and all other rows unchanged |
| Progress.ProgressBar.Update | gfxmpc.py:209-213 | progress grows by one and only that column of the inner rows is lit; a bar showing its progress still does, i.e. the same picture as `set_progress(progress + 1)` then `draw` |
| Schedule.Cancelled | gfxmpc.py:491-497 | after a cancel the remembered entry is not queued; if it was not queued nothing changes (the swallowed `ValueError`); no other entry is removed |
| Schedule.CancelledTwice | gfxmpc.py:614-631 | cancelling the same remembered entry a second time changes nothing |
| Schedule.CancelUndoesEnter | gfxmpc.py:303 | cancelling a freshly armed entry restores the queue it was armed on |
| Schedule.Scheduler.constructor | gfxmpc.py:283-286 | a new scheduler has an empty queue |
| Schedule.Scheduler.Enter | gfxmpc.py:303 | the new entry joins the queue and is handed back as the remembered entry, which is then queued |
| Schedule.Scheduler.Cancel | gfxmpc.py:490-493 | the queue becomes `Cancelled` of the old queue |
| Player.Tag | gfxmpc.py:509-522 | a tag the song has gives its value; a missing tag gives `-` |
| Player.ChangeSong | gfxmpc.py:500-543 | when the new-song block runs to its end: new song id; labels from the tags with `-` for missing ones; a canonical duration clock for the reported duration; scroll flag set iff some label is wider than the panel; touch keys on; flags, progress and elapsed clock unchanged |
| Player.PlayStep | gfxmpc.py:487-561 | raises iff a new song's duration or the elapsed time is 100 minutes or more (the clock redraws at lines 533 and 556 look up a missing glyph); a raise leaves the cancel flag set and the update flag clear, and for a new song with a long duration the scroll flag clear and the touch keys as they were; otherwise the update flag is set and the cancel flag clear; progress and elapsed clock from the status; for the same song the labels, duration, scroll flag and touch keys are unchanged; for another song they are reloaded as `ChangeSong` says |
| Player.PauseStep | gfxmpc.py:562-574 | update flag cleared and cancel flag clear; song id, scroll flag, labels, progress and both clocks unchanged |
| Player.StopStep | gfxmpc.py:576-612 | no song, the `[Title]`/`[Artist]`/`[Album]` placeholders, progress 0, both clocks 00:00, scroll, update and cancel flags clear, touch keys off |
| Player.Transition | gfxmpc.py:487-612 | play takes the song id and sets the update flag iff it does not raise; pause and stop never raise and clear the update flag; stop forgets the song; any other state changes nothing; a raise leaves the workers held back |
| Player.ShutdownStep | gfxmpc.py:614-634 | cancel, scroll and update flags all set, so the workers wake and leave; the rest unchanged |
| Player.TransitionKeepsCoherent | gfxmpc.py:487-612 | every notification that does not raise keeps the panel coherent: cancel clear; scroll iff a song is loaded and a label scrolls; update only with a song; touch keys on iff a song; canonical clocks |
| Player.Run | gfxmpc.py:476-612 | the loop handles notifications in order and ends at the first that raises, leaving the cancel flag set and the update flag clear |
| Player.RunKeepsCoherent | gfxmpc.py:476-612 | any sequence of notifications that the loop survives keeps a coherent panel coherent |
| Player.ReachableCoherent | gfxmpc.py:476-612 | every panel reached from start-up without a raise is coherent |
| Player.SameSongOnlyResyncs | gfxmpc.py:487-561 | a play notification for the loaded song only re-synchronises progress and elapsed time; it sets the update flag and clears the cancel flag, or raises with them the other way round exactly when the elapsed clock cannot be drawn |
| Player.LongTrackRaises | gfxmpc.py:527-533 | a new 100-minute track raises at the duration redraw: the workers stay held back and the touch keys are never enabled |
| Player.CommandFor | gfxmpc.py:377-434 | keys 3 and 5 seek by -5 and +5 seconds; the rejection of a command escapes the handler exactly for keys 2 (stop) and 4 (pause) |
| Player.Mpc.constructor | gfxmpc.py:272-291 | no song, flags clear, placeholders, 00:00 clocks, four fresh schedulers with empty queues, nothing remembered; the LEDs are the board's and are left as they are |
| Player.Mpc.Notify | gfxmpc.py:487-612 | the panel and `raised` follow `Transition`; the progress and elapsed entries are cancelled on play, pause and stop; the text entry on stop and on play of another song; nothing else changes |
| Player.Mpc.Play | gfxmpc.py:487-561 | the panel and `raised` follow `PlayStep`; the progress and elapsed entries are cancelled; the text entry only when the song changed |
| Player.Mpc.Halt | gfxmpc.py:488-497 | cancel flag set, update flag clear; progress and elapsed entries cancelled |
| Player.Mpc.Load | gfxmpc.py:500-529 | scroll flag clear, text entry cancelled, new song id, labels from the tags, duration clock from the status |
| Player.Mpc.Listen | gfxmpc.py:535-543 | scroll flag set if some label is wider than the panel; touch keys on |
| Player.Mpc.Sync | gfxmpc.py:545-553 | progress and elapsed clock from the status |
| Player.Mpc.Release | gfxmpc.py:560-561 | cancel flag clear, update flag set |
| Player.Mpc.Pause | gfxmpc.py:562-574 | the panel follows `PauseStep`; progress and elapsed entries cancelled |
| Player.Mpc.Stop | gfxmpc.py:576-612 | the panel follows `StopStep`; text, progress and elapsed entries cancelled |
| Player.Mpc.Disarm | gfxmpc.py:577-591 | cancel flag set, scroll and update flags clear; text, progress and elapsed entries cancelled |
| Player.Mpc.Clear | gfxmpc.py:593-610 | no song, placeholders, progress 0, 00:00 clocks, touch keys off |
| Player.Mpc.Shutdown | gfxmpc.py:614-643 | the panel follows `ShutdownStep`; all four remembered entries are cancelled; all six LEDs are off |
| Player.Mpc.LedsOff | gfxmpc.py:642-643 | all six LEDs are off |
| Player.Mpc.Touch | gfxmpc.py:377-434 | while the keys are disabled nothing happens; otherwise a press lights the key's LED and issues its command (previous, next, stop, seek -5, pause, seek +5); a release turns the LED off; other events change nothing; other LEDs are untouched; a rejected command escapes the handler only for stop and pause |

## Left out

- Worker threads, the scheduler run loops, the lock and the `threading.Event` waits (gfxmpc.py:301-363) are left out because they concern concurrency and timing. The three event flags are modelled as the booleans the branches leave behind. Pending entries are modelled as scheduler queues.
- Schedule.Scheduler.Enter: the entry's handle is a caller-supplied value not yet queued. Due times and priorities are not modelled, so the queue is a set rather than an ordered heap.
- The MPD client (`connect`, `idle`, `status`, `currentsong`, `ping`, the playback commands) is network I/O. A notification enters as a `Status`, and a command is the `Command` value a touch handler returns.
- Font loading, `getsize` and `draw.text` belong to the font library. They enter as the `width` and `ink` functions of a `Font`. Before its first `draw` a field holds a blank panel-wide strip; in the source there is no strip until then.
- The hardware is modelled only in part:
  - `lcd.show`, `lcd.clear`, the backlight, `touch.on` and `stop_watching` are hardware I/O.
  - Touch registration is the `touchOn` flag.
  - LEDs are an array.
  - The LCD clear in the clean-up is not modelled.
- TextField.Text.Draw: always builds a strip `FONT_SIZE` (16) rows tall, so it does not model the error the source raises for a font less than 16 pixels tall, where the strip is only as tall as `getsize` reports but 16 rows are read from it.
- Player.Mpc.Touch: the keys are enabled by `touch.on` on each new song and disabled by `stop_watching` on stop; this is the `touchOn` flag. The model assumes that `touch.on` enables the keys again after a stop.
- Clock.Time.Update: requires that a carry into the minutes-tens digit leaves a drawable digit. From 99:59 the source's `update` raises in the elapsed worker instead (see `Clock.OverflowAtHundredMinutes`), which ends that worker; workers are outside the model.
- Signals and the backlight alarm (gfxmpc.py:366-374, 447-448) are OS signals.
- Floating-point timing is left out: the progress interval, the origin and fire times, and `int(t_elapsed / interval)`. The progress column and the truncated elapsed and duration seconds are inputs. 
- Player.PlayStep: does not model the `ZeroDivisionError` of `int(t_elapsed / interval)` for a track of duration 0, or a progress column beyond the bar when the elapsed time exceeds the duration, because both come from the floating-point timing.
- Player.Mpc.Play, Player.Mpc.Stop and Player.Mpc.Load: the panel keeps the label strings, the progress column and the clock digits. The redraws of the text fields, bar and clocks that the branches trigger are modelled by the component classes (`TextField.Text.Draw`, `Progress.ProgressBar.Draw`, `Clock.Time.Draw`); `Mpc` does not call them.
- The keep-alive entry is only cancelled, in the clean-up, because arming it belongs to the worker thread.
- MPD reports the song id as a string, and the source compares it with the integer -1 sentinel. The model uses a natural number against -1, which is never equal, the same outcome.
- A tag that MPD reports with several values is taken as one string.
- The stop and pause touch handlers do not catch the player's `CommandError`, while the other four do. The model follows the code: `Touch` reports such a rejection as escaping the handler.
