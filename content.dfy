/**
 * The in-page idle detector of content.js: input and media events update the
 * detector's fields, and a once-a-second check combines them into one idle
 * verdict sent to the service worker. The clock and the page's media
 * elements are inputs.
 */
module Content {
  import opened Sequences

  /** `idleThreshold`: 30 seconds, in ms. */
  const IdleThreshold := 30 * 1000

  /** What the media checks read from a `<video>` or `<audio>` element. */
  datatype MediaElement = MediaElement(paused: bool, ended: bool, readyState: int)

  predicate Playing(e: MediaElement) { !e.paused && !e.ended && e.readyState > 2 }

  /** The `forEach` of `checkVideos`/`checkAudio`: some element is playing. */
  function AnyPlaying(elements: seq<MediaElement>): (r: bool)
    ensures r <==> exists i :: 0 <= i < |elements| && Playing(elements[i])
  {
    AnyOf(elements, Playing)
  }

  /** `Math.min(a, b, c)`. */
  function Min3(a: int, b: int, c: int): (m: int)
    ensures m <= a && m <= b && m <= c
    ensures m == a || m == b || m == c
  {
    if a <= b && a <= c then a else if b <= c then b else c
  }

  /** The expression `isActuallyIdle`, over the flags as the check has just set them. */
  predicate ActuallyIdle(noMouseMovement: bool, noKeyPress: bool, videoIsPlaying: bool, audioIsPlaying: bool,
                         scrollingIsDetected: bool, tabIsInFocus: bool, timeSinceLastActivity: int)
  {
    noMouseMovement && noKeyPress && !videoIsPlaying && !audioIsPlaying
    && !scrollingIsDetected && tabIsInFocus && timeSinceLastActivity > IdleThreshold
  }

  /**
   * The verdict the check computes at `now`: idle exactly when no mouse, key
   * or scroll event happened in the last 30 s, nothing plays, no scroll is
   * flagged and the tab has focus. The two "no input" flags add nothing to the
   * minimum test.
   */
  lemma IdleIffAllQuiet(now: int, lastMouse: int, lastKey: int, lastScroll: int,
                        video: bool, audio: bool, scrolling: bool, focus: bool)
    ensures ActuallyIdle(now - lastMouse > IdleThreshold, now - lastKey > IdleThreshold, video, audio, scrolling, focus,
                         Min3(now - lastMouse, now - lastKey, now - lastScroll))
        <==> (now - lastMouse > IdleThreshold && now - lastKey > IdleThreshold && now - lastScroll > IdleThreshold
              && !video && !audio && !scrolling && focus)
  {}

  class IdleDetector {
    var lastMouseMovement: int
    var lastKeyPress: int
    var lastScrollEvent: int
    var videoIsPlaying: bool
    var audioIsPlaying: bool
    var noMouseMovement: bool
    var noKeyPress: bool
    var scrollingIsDetected: bool
    var tabIsInFocus: bool

    /** The constructor's initial state: every timestamp is the creation instant, nothing idle. */
    constructor (now: int)
      ensures lastMouseMovement == now && lastKeyPress == now && lastScrollEvent == now
      ensures !videoIsPlaying && !audioIsPlaying && !noMouseMovement && !noKeyPress
      ensures !scrollingIsDetected && tabIsInFocus
    {
      lastMouseMovement, lastKeyPress, lastScrollEvent := now, now, now;
      videoIsPlaying, audioIsPlaying := false, false;
      noMouseMovement, noKeyPress := false, false;
      scrollingIsDetected := false;
      tabIsInFocus := true;
    }

    /** `mousemove`. */
    method OnMouseMove(now: int)
      modifies this`lastMouseMovement, this`noMouseMovement
      ensures lastMouseMovement == now && !noMouseMovement
    {
      lastMouseMovement := now;
      noMouseMovement := false;
    }

    /** `keydown`. */
    method OnKeyDown(now: int)
      modifies this`lastKeyPress, this`noKeyPress
      ensures lastKeyPress == now && !noKeyPress
    {
      lastKeyPress := now;
      noKeyPress := false;
    }

    /** `scroll`: flags scrolling; the flag is cleared by `OnScrollTimeout` two seconds later. */
    method OnScroll(now: int)
      modifies this`lastScrollEvent, this`scrollingIsDetected
      ensures lastScrollEvent == now && scrollingIsDetected
    {
      lastScrollEvent := now;
      scrollingIsDetected := true;
    }

    /** The 2-second `setTimeout` a scroll event schedules. */
    method OnScrollTimeout()
      modifies this`scrollingIsDetected
      ensures !scrollingIsDetected
    {
      scrollingIsDetected := false;
    }

    /** `visibilitychange`, `focus` and `blur`: the tab's focus is what the event says. */
    method OnFocusEvent(inFocus: bool)
      modifies this`tabIsInFocus
      ensures tabIsInFocus == inFocus
    {
      tabIsInFocus := inFocus;
    }

    /** The 500 ms video poll and the recheck after a video `pause` event. */
    method CheckVideos(videos: seq<MediaElement>)
      modifies this`videoIsPlaying
      ensures videoIsPlaying <==> exists i :: 0 <= i < |videos| && Playing(videos[i])
    {
      var anyVideoPlaying := false;
      var i := 0;
      while i < |videos|
        invariant 0 <= i <= |videos|
        invariant anyVideoPlaying <==> exists j :: 0 <= j < i && Playing(videos[j])
      {
        if !videos[i].paused && !videos[i].ended && videos[i].readyState > 2 {
          anyVideoPlaying := true;
        }
        i := i + 1;
      }
      videoIsPlaying := anyVideoPlaying;
    }

    /** The 500 ms audio poll and the recheck after an audio `pause` event. */
    method CheckAudio(audioElements: seq<MediaElement>)
      modifies this`audioIsPlaying
      ensures audioIsPlaying <==> AnyPlaying(audioElements)
    {
      audioIsPlaying := AnyPlaying(audioElements);
    }

    /** A `play` event on a `<video>` (`isVideo`) or `<audio>` element. */
    method OnPlay(isVideo: bool)
      modifies this`videoIsPlaying, this`audioIsPlaying
      ensures isVideo ==> videoIsPlaying && audioIsPlaying == old(audioIsPlaying)
      ensures !isVideo ==> audioIsPlaying && videoIsPlaying == old(videoIsPlaying)
    {
      if isVideo {
        videoIsPlaying := true;
      } else {
        audioIsPlaying := true;
      }
    }

    /**
     * One run of the `startIdleCheckLoop` interval at `now`: refreshes the two
     * "no input" flags and returns the verdict and the time since the latest
     * input event.
     */
    method IdleCheck(now: int) returns (isIdle: bool, timeSinceLastActivity: int)
      modifies this`noMouseMovement, this`noKeyPress
      ensures noMouseMovement <==> now - lastMouseMovement > IdleThreshold
      ensures noKeyPress <==> now - lastKeyPress > IdleThreshold
      ensures timeSinceLastActivity == Min3(now - lastMouseMovement, now - lastKeyPress, now - lastScrollEvent)
      ensures isIdle <==> ActuallyIdle(noMouseMovement, noKeyPress, videoIsPlaying, audioIsPlaying,
                                       scrollingIsDetected, tabIsInFocus, timeSinceLastActivity)
      ensures isIdle ==> now - lastMouseMovement > IdleThreshold && now - lastKeyPress > IdleThreshold
                         && now - lastScrollEvent > IdleThreshold
      ensures isIdle ==> !videoIsPlaying && !audioIsPlaying && !scrollingIsDetected && tabIsInFocus
    {
      timeSinceLastActivity := Min3(now - lastMouseMovement, now - lastKeyPress, now - lastScrollEvent);
      noMouseMovement := now - lastMouseMovement > IdleThreshold;
      noKeyPress := now - lastKeyPress > IdleThreshold;
      isIdle := noMouseMovement && noKeyPress && !videoIsPlaying && !audioIsPlaying
                && !scrollingIsDetected && tabIsInFocus && timeSinceLastActivity > IdleThreshold;
    }
  }

  /** Within 30 s of a mouse move, the check never reports idle. */
  method RecentMouseMoveIsNotIdle(created: int, moved: int, now: int) returns (isIdle: bool)
    requires moved <= now <= moved + IdleThreshold
    ensures !isIdle
  {
    var detector := new IdleDetector(created);
    detector.OnMouseMove(moved);
    var since;
    isIdle, since := detector.IdleCheck(now);
  }
}
