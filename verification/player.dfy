/**
 * The main loop of the front end, reduced to a state machine: on every
 * player notification it classifies the reported state and re-synchronises
 * the flags that gate the worker loops, the pending timer entries, the three
 * labels, the progress column and the two clocks.  Also the touch-key
 * handlers and the clean-up after the connection is lost.
 *
 * The worker threads, the network client, the font library and the display
 * hardware are outside the model: their results enter as parameters.
 */
module Player {
  import opened Clock
  import opened TextField
  import opened Schedule

  /** `_current_songid` when no track is loaded. */
  const NO_SONG := -1
  /** Label shown for a metadata tag the player does not report. */
  const MISSING_TAG := "-"
  const TITLE_PLACEHOLDER := "[Title]"
  const ARTIST_PLACEHOLDER := "[Artist]"
  const ALBUM_PLACEHOLDER := "[Album]"
  const ZERO: Digits := Digits(0, 0, 0, 0)
  const LED_COUNT := 6

  /**
   * One status notification.  `elapsed` and `duration` are the reported
   * seconds truncated to integers; `progress` is the progress column derived
   * from them; `song` is the tag map of the current song.
   */
  datatype Status = Status(
    state: string,
    songId: nat,
    elapsed: int,
    duration: int,
    song: map<string, string>,
    progress: int)

  /** The front end's own state that the transitions read or write. */
  datatype Panel = Panel(
    songId: int,
    cancel: bool,
    update: bool,
    scroll: bool,
    title: string,
    artist: string,
    album: string,
    progress: int,
    elapsed: Digits,
    duration: Digits,
    touchOn: bool)

  /** The state after start-up: placeholders, zero clocks, every flag clear. */
  const INITIAL: Panel := Panel(NO_SONG, false, false, false,
                                TITLE_PLACEHOLDER, ARTIST_PLACEHOLDER, ALBUM_PLACEHOLDER,
                                0, ZERO, ZERO, false)

  /** The label for tag `key`, `-` when the song has no such tag. */
  function Tag(song: map<string, string>, key: string): (v: string)
    ensures key in song ==> v == song[key]
    ensures key !in song ==> v == MISSING_TAG
  {
    if key in song then song[key] else MISSING_TAG
  }

  /** A label wider than the panel makes its field scrollable once drawn. */
  predicate Scrolls(width: string -> nat, t: string) {
    ScrollableWidth(width(t)) != 0
  }

  predicate AnyScrolls(width: string -> nat, p: Panel) {
    Scrolls(width, p.title) || Scrolls(width, p.artist) || Scrolls(width, p.album)
  }

  /**
   * What holds between notifications: the cancel flag is down, the text
   * scroller is enabled exactly when a track is loaded and one of its labels
   * scrolls, the tick workers only run with a track loaded, the touch keys
   * are live exactly when a track is loaded, and the clocks are well formed.
   */
  predicate Coherent(p: Panel, width: string -> nat) {
    !p.cancel && p.songId >= NO_SONG &&
    (p.scroll <==> p.songId != NO_SONG && AnyScrolls(width, p)) &&
    (p.update ==> p.songId != NO_SONG) &&
    (p.touchOn <==> p.songId != NO_SONG) &&
    Canonical(p.elapsed) && Canonical(p.duration)
  }

  /**
   * A number of seconds whose mm:ss clock the digit font can draw: from
   * 100 minutes on, the minutes-tens digit has no glyph (see `SplitDrawable`).
   */
  predicate Fits(secs: int) {
    -6000 <= secs < 6000
  }

  /**
   * The result of handling one notification.  `raised` means that drawing a
   * clock looked up a missing glyph: the `IndexError` is not the one the main
   * loop catches, so the loop ends with the panel as `panel` leaves it.
   */
  datatype Outcome = Outcome(panel: Panel, raised: bool)

  /** First step of `play` and `pause`: hold the workers back and stop the tick worker. */
  function Halted(p: Panel): Panel {
    p.(cancel := true, update := false)
  }

  /** The steps of `play` for a new song up to the redraw of the duration clock. */
  function Relabeled(p: Panel, st: Status): Panel {
    p.(scroll := false,
       songId := st.songId,
       title := Tag(st.song, "title"), artist := Tag(st.song, "artist"), album := Tag(st.song, "album"),
       duration := Split(st.duration))
  }

  /** The steps of `play` for a new song after the redraw: enable the scroller if needed, enable the keys. */
  function Listening(p: Panel, width: string -> nat): Panel {
    p.(scroll := p.scroll || AnyScrolls(width, p), touchOn := true)
  }

  /** The part of the `play` branch that runs only when the song id changed, when it runs to its end. */
  function ChangeSong(p: Panel, st: Status, width: string -> nat): (r: Panel)
    ensures r.songId == st.songId
    ensures r.title == Tag(st.song, "title") && r.artist == Tag(st.song, "artist") && r.album == Tag(st.song, "album")
    ensures Canonical(r.duration) && Seconds(r.duration) == st.duration
    ensures (r.scroll <==> AnyScrolls(width, r)) && r.touchOn
    ensures r.cancel == p.cancel && r.update == p.update && r.progress == p.progress && r.elapsed == p.elapsed
  {
    Listening(Relabeled(p, st), width)
  }

  /** The steps of `play` that take over progress and elapsed time, up to the redraw of the elapsed clock. */
  function Synced(p: Panel, st: Status): Panel {
    p.(progress := st.progress, elapsed := Split(st.elapsed))
  }

  /** Last step of `play`: release the workers. */
  function Released(p: Panel): Panel {
    p.(cancel := false, update := true)
  }

  /**
   * `play`: re-synchronise progress and elapsed time; reload the labels only
   * for a new song.  The branch raises when it redraws a clock it cannot
   * draw: the duration clock of a new song, or the elapsed clock.
   */
  function PlayStep(p: Panel, st: Status, width: string -> nat): (r: Outcome)
    ensures r.raised <==> (st.songId != p.songId && !Fits(st.duration)) || !Fits(st.elapsed)
    ensures r.panel.songId == st.songId
    ensures r.raised ==> r.panel.cancel && !r.panel.update
    ensures !r.raised ==> r.panel.update && !r.panel.cancel
    ensures st.songId == p.songId ==>
      r.panel.title == p.title && r.panel.artist == p.artist && r.panel.album == p.album &&
      r.panel.duration == p.duration && r.panel.scroll == p.scroll && r.panel.touchOn == p.touchOn
    ensures st.songId != p.songId ==>
      r.panel.title == Tag(st.song, "title") && r.panel.artist == Tag(st.song, "artist") &&
      r.panel.album == Tag(st.song, "album") &&
      Canonical(r.panel.duration) && Seconds(r.panel.duration) == st.duration
    ensures st.songId != p.songId && Fits(st.duration) ==>
      (r.panel.scroll <==> AnyScrolls(width, r.panel)) && r.panel.touchOn
    ensures st.songId != p.songId && !Fits(st.duration) ==>
      !r.panel.scroll && r.panel.touchOn == p.touchOn &&
      r.panel.progress == p.progress && r.panel.elapsed == p.elapsed
    ensures st.songId == p.songId || Fits(st.duration) ==>
      r.panel.progress == st.progress && Canonical(r.panel.elapsed) && Seconds(r.panel.elapsed) == st.elapsed
  {
    SplitDrawable(st.duration);
    SplitDrawable(st.elapsed);
    var halted := Halted(p);
    if p.songId != st.songId && !Drawable(Split(st.duration)) then
      Outcome(Relabeled(halted, st), true)
    else
      var synced := Synced(if p.songId != st.songId then ChangeSong(halted, st, width) else halted, st);
      if Drawable(Split(st.elapsed)) then Outcome(Released(synced), false) else Outcome(synced, true)
  }

  /** `pause`: stop the tick workers; the picture and the text scroller are left as they are. */
  function PauseStep(p: Panel): (r: Panel)
    ensures !r.update && !r.cancel
    ensures r.songId == p.songId && r.scroll == p.scroll && r.touchOn == p.touchOn
    ensures r.title == p.title && r.artist == p.artist && r.album == p.album
    ensures r.progress == p.progress && r.elapsed == p.elapsed && r.duration == p.duration
  {
    Halted(p).(cancel := false)
  }

  /** First step of `stop`: hold the workers back and stop the scroller and the tick workers. */
  function Disarmed(p: Panel): Panel {
    p.(cancel := true, scroll := false, update := false)
  }

  /** Second step of `stop`: forget the song and show the placeholders and zero clocks. */
  function Cleared(p: Panel): Panel {
    p.(songId := NO_SONG,
       title := TITLE_PLACEHOLDER, artist := ARTIST_PLACEHOLDER, album := ALBUM_PLACEHOLDER,
       progress := 0, elapsed := Split(0), duration := Split(0), touchOn := false)
  }

  /** `stop`: stop every animation and reset the panel to its placeholders. */
  function StopStep(p: Panel): (r: Panel)
    ensures r.songId == NO_SONG && !r.scroll && !r.update && !r.cancel && !r.touchOn
    ensures r.title == TITLE_PLACEHOLDER && r.artist == ARTIST_PLACEHOLDER && r.album == ALBUM_PLACEHOLDER
    ensures r.progress == 0 && Seconds(r.elapsed) == 0 && Seconds(r.duration) == 0
    ensures Canonical(r.elapsed) && Canonical(r.duration)
  {
    Cleared(Disarmed(p)).(cancel := false)
  }

  /** One notification; a state other than play, pause and stop changes nothing. */
  function Transition(p: Panel, st: Status, width: string -> nat): (r: Outcome)
    ensures st.state != "play" && st.state != "pause" && st.state != "stop" ==> r == Outcome(p, false)
    ensures st.state == "play" ==> r.panel.songId == st.songId && (r.panel.update <==> !r.raised)
    ensures st.state == "pause" || st.state == "stop" ==> !r.raised && !r.panel.update
    ensures st.state == "stop" ==> r.panel.songId == NO_SONG
    ensures r.raised ==> r.panel.cancel && !r.panel.update
  {
    if st.state == "play" then PlayStep(p, st, width)
    else if st.state == "pause" then Outcome(PauseStep(p), false)
    else if st.state == "stop" then Outcome(StopStep(p), false)
    else Outcome(p, false)
  }

  /** The notification cancels the pending progress and elapsed ticks. */
  predicate CancelsTicks(st: Status) {
    st.state == "play" || st.state == "pause" || st.state == "stop"
  }

  /** The notification cancels the pending text scroll: on stop, and on play of another song. */
  predicate CancelsScroll(p: Panel, st: Status) {
    st.state == "stop" || (st.state == "play" && st.songId != p.songId)
  }

  /** Clean-up after the connection is lost: raise every flag so that the workers wake and leave. */
  function ShutdownStep(p: Panel): (r: Panel)
    ensures r.cancel && r.scroll && r.update
    ensures r.songId == p.songId && r.title == p.title && r.artist == p.artist && r.album == p.album
    ensures r.progress == p.progress && r.elapsed == p.elapsed && r.duration == p.duration && r.touchOn == p.touchOn
  {
    p.(cancel := true, scroll := true, update := true)
  }

  /** Every notification the loop survives keeps the panel coherent. */
  lemma {:induction false} TransitionKeepsCoherent(p: Panel, st: Status, width: string -> nat)
    requires Coherent(p, width)
    ensures !Transition(p, st, width).raised ==> Coherent(Transition(p, st, width).panel, width)
  {
    if st.state == "play" && st.songId != p.songId {
      var r := PlayStep(p, st, width);
      assert !r.raised ==> (r.panel.scroll <==> AnyScrolls(width, r.panel));
    }
  }

  /**
   * The main loop handling the notifications `sts` in order; it ends at the
   * first notification that raises, with the workers held back for good.
   */
  function Run(p: Panel, sts: seq<Status>, width: string -> nat): (r: Outcome)
    ensures r.raised ==> r.panel.cancel && !r.panel.update
    decreases |sts|
  {
    if sts == [] then Outcome(p, false)
    else
      var o := Transition(p, sts[0], width);
      if o.raised then o else Run(o.panel, sts[1..], width)
  }

  /** Any sequence of notifications the loop survives keeps a coherent panel coherent. */
  lemma {:induction false} RunKeepsCoherent(p: Panel, sts: seq<Status>, width: string -> nat)
    requires Coherent(p, width)
    ensures !Run(p, sts, width).raised ==> Coherent(Run(p, sts, width).panel, width)
    decreases |sts|
  {
    if sts != [] {
      TransitionKeepsCoherent(p, sts[0], width);
      if !Transition(p, sts[0], width).raised {
        RunKeepsCoherent(Transition(p, sts[0], width).panel, sts[1..], width);
      }
    }
  }

  /** Every panel the front end reaches from start-up without raising is coherent. */
  lemma {:induction false} ReachableCoherent(sts: seq<Status>, width: string -> nat)
    ensures !Run(INITIAL, sts, width).raised ==> Coherent(Run(INITIAL, sts, width).panel, width)
  {
    RunKeepsCoherent(INITIAL, sts, width);
  }

  /**
   * A repeated `play` notification for the loaded song only re-synchronises
   * progress and elapsed time: labels, duration, scroller and touch keys stay.
   * It raises exactly when the elapsed clock cannot be drawn, with the workers
   * still held back.
   */
  lemma {:induction false} SameSongOnlyResyncs(p: Panel, st: Status, width: string -> nat)
    requires st.state == "play" && st.songId == p.songId
    ensures Transition(p, st, width) ==
      Outcome(p.(cancel := !Fits(st.elapsed), update := Fits(st.elapsed),
                 progress := st.progress, elapsed := Split(st.elapsed)),
              !Fits(st.elapsed))
  {
    SplitDrawable(st.elapsed);
  }

  /**
   * A new track of 100 minutes ends the main loop: the workers stay held
   * back and the touch keys are never enabled.
   */
  lemma {:induction false} LongTrackRaises(width: string -> nat)
    ensures var r := Transition(INITIAL, Status("play", 7, 0, 6000, map[], 0), width);
      r.raised && r.panel.cancel && !r.panel.update && !r.panel.touchOn && r.panel.songId == 7
  {
    assert !Fits(6000);
  }

  /** The playback commands bound to the six touch keys. */
  datatype Command = Previous | Next | StopPlayback | SeekCur(delta: string) | TogglePause

  /** Up, down, back, minus, select and plus, in channel order. */
  function CommandFor(channel: int): (c: Command)
    requires 0 <= channel < LED_COUNT
    ensures c.SeekCur? <==> channel == 3 || channel == 5
    ensures c.SeekCur? ==> c.delta == if channel == 3 then "-5" else "+5"
    ensures !RejectionDiscarded(c) <==> channel == 2 || channel == 4
  {
    match channel
    case 0 => Previous
    case 1 => Next
    case 2 => StopPlayback
    case 3 => SeekCur("-5")
    case 4 => TogglePause
    case _ => SeekCur("+5")
  }

  /** The handler discards a rejection of this command; for stop and pause it does not. */
  predicate RejectionDiscarded(c: Command) {
    !c.StopPlayback? && !c.TogglePause?
  }

  class Mpc {
    /** Font metrics used when the labels are drawn. */
    const font: Font
    /** The indicator LEDs of the six touch keys. */
    const leds: array<bool>
    const keepaliveScheduler: Scheduler
    const textScheduler: Scheduler
    const progressScheduler: Scheduler
    const elapsedScheduler: Scheduler
    /** The entry each task armed last, `None` before the first. */
    var waitingKeepalive: Option<Handle>
    var waitingText: Option<Handle>
    var waitingProgress: Option<Handle>
    var waitingElapsed: Option<Handle>
    var currentSongId: int
    var cancel: bool
    var update: bool
    var scroll: bool
    var title: string
    var artist: string
    var album: string
    var progress: int
    var elapsed: Digits
    var duration: Digits
    var touchOn: bool

    /** Six LEDs and four separate schedulers. */
    predicate Valid() {
      leds.Length == LED_COUNT &&
      keepaliveScheduler != textScheduler && keepaliveScheduler != progressScheduler &&
      keepaliveScheduler != elapsedScheduler && textScheduler != progressScheduler &&
      textScheduler != elapsedScheduler && progressScheduler != elapsedScheduler
    }

    function State(): Panel
      reads this
    {
      Panel(currentSongId, cancel, update, scroll, title, artist, album, progress, elapsed, duration, touchOn)
    }

    /** The LEDs are the touch board's; start-up leaves them as they are. */
    constructor (font: Font, leds: array<bool>)
      requires leds.Length == LED_COUNT
      ensures Valid() && State() == INITIAL && this.font == font && this.leds == leds
      ensures fresh(keepaliveScheduler) && fresh(textScheduler) && fresh(progressScheduler) && fresh(elapsedScheduler)
      ensures keepaliveScheduler.queue == textScheduler.queue == {}
      ensures progressScheduler.queue == elapsedScheduler.queue == {}
      ensures waitingKeepalive == waitingText == waitingProgress == waitingElapsed == None
    {
      this.font, this.leds := font, leds;
      keepaliveScheduler := new Scheduler();
      textScheduler := new Scheduler();
      progressScheduler := new Scheduler();
      elapsedScheduler := new Scheduler();
      waitingKeepalive, waitingText, waitingProgress, waitingElapsed := None, None, None, None;
      currentSongId := NO_SONG;
      cancel, update, scroll := false, false, false;
      title, artist, album := TITLE_PLACEHOLDER, ARTIST_PLACEHOLDER, ALBUM_PLACEHOLDER;
      progress := 0;
      elapsed, duration := ZERO, ZERO;
      touchOn := false;
    }

    /**
     * One pass of the main loop, after the status `st` has been fetched:
     * the panel follows `Transition`, and the pending ticks and text scroll
     * are cancelled as `CancelsTicks` and `CancelsScroll` say.  `raised`
     * means the pass ended in the error that stops the loop.
     */
    method Notify(st: Status) returns (raised: bool)
      requires Valid()
      modifies this, textScheduler, progressScheduler, elapsedScheduler
      ensures Outcome(State(), raised) == Transition(old(State()), st, font.width)
      ensures unchanged(this`waitingKeepalive, this`waitingText, this`waitingProgress, this`waitingElapsed)
      ensures progressScheduler.queue ==
        if CancelsTicks(st) then Cancelled(old(progressScheduler.queue), old(waitingProgress)) else old(progressScheduler.queue)
      ensures elapsedScheduler.queue ==
        if CancelsTicks(st) then Cancelled(old(elapsedScheduler.queue), old(waitingElapsed)) else old(elapsedScheduler.queue)
      ensures textScheduler.queue ==
        if CancelsScroll(old(State()), st) then Cancelled(old(textScheduler.queue), old(waitingText))
        else old(textScheduler.queue)
    {
      raised := false;
      if st.state == "play" {
        raised := Play(st);
      } else if st.state == "pause" {
        Pause();
      } else if st.state == "stop" {
        Stop();
      }
    }

    /** The `play` branch; `raised` when a clock redraw looks up a missing glyph. */
    method Play(st: Status) returns (raised: bool)
      requires Valid()
      modifies this, textScheduler, progressScheduler, elapsedScheduler
      ensures Outcome(State(), raised) == PlayStep(old(State()), st, font.width)
      ensures unchanged(this`waitingKeepalive, this`waitingText, this`waitingProgress, this`waitingElapsed)
      ensures progressScheduler.queue == Cancelled(old(progressScheduler.queue), old(waitingProgress))
      ensures elapsedScheduler.queue == Cancelled(old(elapsedScheduler.queue), old(waitingElapsed))
      ensures textScheduler.queue ==
        if old(currentSongId) != st.songId then Cancelled(old(textScheduler.queue), old(waitingText))
        else old(textScheduler.queue)
    {
      Halt();
      if currentSongId != st.songId {
        Load(st);
        // the duration clock is redrawn here
        if !Drawable(duration) {
          return true;
        }
        Listen();
      }
      Sync(st);
      // the elapsed clock is redrawn here
      if !Drawable(elapsed) {
        return true;
      }
      Release();
      return false;
    }

    /** The steps `play` and `pause` begin with. */
    method Halt()
      requires Valid()
      modifies this`cancel, this`update, progressScheduler, elapsedScheduler
      ensures State() == Halted(old(State()))
      ensures progressScheduler.queue == Cancelled(old(progressScheduler.queue), waitingProgress)
      ensures elapsedScheduler.queue == Cancelled(old(elapsedScheduler.queue), waitingElapsed)
    {
      cancel := true;
      update := false;
      progressScheduler.Cancel(waitingProgress);
      elapsedScheduler.Cancel(waitingElapsed);
    }

    /** The steps of `play` for a new song, up to the redraw of the duration clock. */
    method Load(st: Status)
      modifies this`scroll, this`currentSongId, this`title, this`artist, this`album,
               this`duration, textScheduler
      ensures State() == Relabeled(old(State()), st)
      ensures textScheduler.queue == Cancelled(old(textScheduler.queue), waitingText)
    {
      scroll := false;
      textScheduler.Cancel(waitingText);
      currentSongId := st.songId;
      title := Tag(st.song, "title");
      artist := Tag(st.song, "artist");
      album := Tag(st.song, "album");
      duration := Split(st.duration);
    }

    /** The steps of `play` for a new song after the redraw: scroller and touch keys. */
    method Listen()
      modifies this`scroll, this`touchOn
      ensures State() == Listening(old(State()), font.width)
    {
      if Scrolls(font.width, title) || Scrolls(font.width, artist) || Scrolls(font.width, album) {
        scroll := true;
      }
      touchOn := true;
    }

    /** The steps of `play` that take over progress and elapsed time. */
    method Sync(st: Status)
      modifies this`progress, this`elapsed
      ensures State() == Synced(old(State()), st)
    {
      progress := st.progress;
      elapsed := Split(st.elapsed);
    }

    /** The steps `play` ends with. */
    method Release()
      modifies this`cancel, this`update
      ensures State() == Released(old(State()))
    {
      cancel := false;
      update := true;
    }

    /** The `pause` branch. */
    method Pause()
      requires Valid()
      modifies this, progressScheduler, elapsedScheduler
      ensures State() == PauseStep(old(State()))
      ensures unchanged(this`waitingKeepalive, this`waitingText, this`waitingProgress, this`waitingElapsed)
      ensures progressScheduler.queue == Cancelled(old(progressScheduler.queue), old(waitingProgress))
      ensures elapsedScheduler.queue == Cancelled(old(elapsedScheduler.queue), old(waitingElapsed))
    {
      Halt();
      cancel := false;
    }

    /** The `stop` branch. */
    method Stop()
      requires Valid()
      modifies this, textScheduler, progressScheduler, elapsedScheduler
      ensures State() == StopStep(old(State()))
      ensures unchanged(this`waitingKeepalive, this`waitingText, this`waitingProgress, this`waitingElapsed)
      ensures textScheduler.queue == Cancelled(old(textScheduler.queue), old(waitingText))
      ensures progressScheduler.queue == Cancelled(old(progressScheduler.queue), old(waitingProgress))
      ensures elapsedScheduler.queue == Cancelled(old(elapsedScheduler.queue), old(waitingElapsed))
    {
      Disarm();
      Clear();
      cancel := false;
    }

    /** The steps `stop` begins with. */
    method Disarm()
      requires Valid()
      modifies this`cancel, this`scroll, this`update, textScheduler, progressScheduler, elapsedScheduler
      ensures State() == Disarmed(old(State()))
      ensures textScheduler.queue == Cancelled(old(textScheduler.queue), waitingText)
      ensures progressScheduler.queue == Cancelled(old(progressScheduler.queue), waitingProgress)
      ensures elapsedScheduler.queue == Cancelled(old(elapsedScheduler.queue), waitingElapsed)
    {
      cancel := true;
      scroll := false;
      update := false;
      textScheduler.Cancel(waitingText);
      progressScheduler.Cancel(waitingProgress);
      elapsedScheduler.Cancel(waitingElapsed);
    }

    /** The placeholders and zero clocks `stop` shows. */
    method Clear()
      modifies this`currentSongId, this`title, this`artist, this`album, this`progress,
               this`elapsed, this`duration, this`touchOn
      ensures State() == Cleared(old(State()))
    {
      currentSongId := NO_SONG;
      title, artist, album := TITLE_PLACEHOLDER, ARTIST_PLACEHOLDER, ALBUM_PLACEHOLDER;
      progress := 0;
      elapsed := Split(0);
      duration := Split(0);
      touchOn := false;
    }

    /**
     * The clean-up when the connection fails: cancel every pending entry,
     * raise the flags so the workers wake and leave, turn the LEDs off.
     */
    method Shutdown()
      requires Valid()
      modifies this, leds, keepaliveScheduler, textScheduler, progressScheduler, elapsedScheduler
      ensures State() == ShutdownStep(old(State()))
      ensures unchanged(this`waitingKeepalive, this`waitingText, this`waitingProgress, this`waitingElapsed)
      ensures keepaliveScheduler.queue == Cancelled(old(keepaliveScheduler.queue), old(waitingKeepalive))
      ensures textScheduler.queue == Cancelled(old(textScheduler.queue), old(waitingText))
      ensures progressScheduler.queue == Cancelled(old(progressScheduler.queue), old(waitingProgress))
      ensures elapsedScheduler.queue == Cancelled(old(elapsedScheduler.queue), old(waitingElapsed))
      ensures forall ch | 0 <= ch < LED_COUNT :: !leds[ch]
    {
      cancel := true;
      keepaliveScheduler.Cancel(waitingKeepalive);
      textScheduler.Cancel(waitingText);
      progressScheduler.Cancel(waitingProgress);
      elapsedScheduler.Cancel(waitingElapsed);
      scroll := true;
      update := true;
      LedsOff();
    }

    /** Turns every touch-key LED off. */
    method LedsOff()
      requires Valid()
      modifies leds
      ensures forall ch | 0 <= ch < LED_COUNT :: !leds[ch]
    {
      for ch := 0 to LED_COUNT
        invariant forall c | 0 <= c < ch :: !leds[c]
      {
        leds[ch] := false;
      }
    }

    /**
     * The handler of touch key `channel`, which only runs while the keys are
     * enabled: a press lights its LED and issues the key's command, a release
     * turns the LED off; other LEDs are untouched.  `rejected` is the player's
     * answer to the command; the rejection escapes the handler (`raised`)
     * only for the keys that do not discard it.
     */
    method Touch(channel: int, event: string, rejected: bool) returns (cmd: Option<Command>, raised: bool)
      requires Valid() && 0 <= channel < LED_COUNT
      modifies leds
      ensures !touchOn ==> leds[channel] == old(leds[channel]) && cmd == None
      ensures touchOn && event == "press" ==> leds[channel] && cmd == Some(CommandFor(channel))
      ensures touchOn && event == "release" ==> !leds[channel] && cmd == None
      ensures event != "press" && event != "release" ==> leds[channel] == old(leds[channel]) && cmd == None
      ensures raised <==> cmd.Some? && rejected && !RejectionDiscarded(cmd.value)
      ensures forall ch | 0 <= ch < LED_COUNT && ch != channel :: leds[ch] == old(leds[ch])
    {
      cmd, raised := None, false;
      if touchOn && event == "press" {
        leds[channel] := true;
        cmd := Some(CommandFor(channel));
        if rejected && !RejectionDiscarded(cmd.value) {
          raised := true;
        }
      } else if touchOn && event == "release" {
        leds[channel] := false;
      }
    }
  }
}
