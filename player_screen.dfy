/**
 * The narration playback engine of the player screen
 * (src/pages/PlayerScreen.tsx).
 *
 * The screen keeps six pieces of state.  While it is playing, a 50 ms
 * interval fires; each firing is one atomic tick that either advances the
 * progress within the current segment, by an amount that depends on the
 * segment kind, the code mode and the speed, or, once the progress has
 * reached 100, moves to the next segment or stops at the last one.  The
 * transport buttons are plain guarded updates.
 *
 * The state is the value `Session`; each event is a function from session to
 * session, and the class `Player` holds the same state in fields and applies
 * those functions in place.
 *
 * One detail of the source is kept on purpose.  The interval effect is
 * re-created only when `isPlaying`, the index, the speed, the code mode or the
 * NUMBER of segments changes, and its callback reads the article it closed
 * over.  `paced` is that article's segment list: after the article prop is
 * replaced by one of the same length, ticks keep pacing by the old segments
 * until one of those dependencies changes.
 */
module PlayerScreen {
  import opened Wrappers
  import opened Types
  import opened MockData

  /** The progress at which a segment is finished. */
  const Done: real := 100.0
  /** Progress per tick on prose at speed 1. */
  const BaseRate: real := 0.5
  /** The largest increment one tick can add: base rate × top speed × label factor. */
  const MaxIncrement: real := 2.0
  /** What the screen shows when the index is past the last segment. */
  const EndOfContent: Segment := Text("内容结束。")

  /** The playback speeds the speed button cycles through. */
  predicate IsSpeed(x: real)
  {
    x == 1.0 || x == 1.5 || x == 2.0
  }

  // ---------------------------------------------------------------- pace rule

  /** The speed factor of a segment under a code mode (skip is handled by `Pace`). */
  function SpeedFactor(seg: Segment, mode: CodeMode): (f: real)
    ensures 0.8 <= f <= 2.0
    ensures seg.Text? || mode.OtherCodeMode? || mode.Skip? ==> f == 1.0
  {
    if seg.Code? && mode == Label then 2.0
    else if seg.Code? && mode == Summary then 0.8
    else 1.0
  }

  /** What one tick does to an unfinished segment. */
  datatype Advance = Complete | By(amount: real)

  /** The pace of a tick: code in skip mode completes at once, all else advances. */
  function Pace(seg: Segment, mode: CodeMode, speed: real): (a: Advance)
    ensures a.Complete? <==> seg.Code? && mode == Skip
    ensures a.By? && speed >= 1.0 ==> a.amount >= 0.4
    ensures a.By? && 0.0 <= speed <= 2.0 ==> a.amount <= speed <= MaxIncrement
  {
    if seg.Code? && mode == Skip then Complete
    else By(BaseRate * speed * SpeedFactor(seg, mode))
  }

  /** The segment at an index of a list, if there is one. */
  function SegmentAt(segs: seq<Segment>, i: int): (r: Option<Segment>)
    ensures r.Some? <==> 0 <= i < |segs|
    ensures r.Some? ==> r.value == segs[i]
  {
    if 0 <= i < |segs| then Some(segs[i]) else None
  }

  /** The progress after a tick below 100: a missing segment counts as finished. */
  function Advanced(p: real, seg: Option<Segment>, mode: CodeMode, speed: real): real
  {
    match seg
    case None => Done
    case Some(g) =>
      match Pace(g, mode, speed)
      case Complete => Done
      case By(x) => p + x
  }

  // ---------------------------------------------------------------- the session

  datatype Session = Session(
    article: Article,         // the article prop
    paced: seq<Segment>,      // the segments the running interval closed over
    isPlaying: bool,
    index: int,               // currentSegmentIndex
    progress: real,
    scene: SceneMode,
    codeMode: CodeMode,
    speed: real)              // playbackSpeed

  /**
   * What every reachable session satisfies.  The index is never negative but
   * may lie past the end (the article can be replaced by a shorter one), and
   * the progress may overshoot 100 by less than one increment.
   */
  ghost predicate Valid(s: Session)
  {
    && 0 <= s.index
    && 0.0 <= s.progress < Done + MaxIncrement
    && IsSpeed(s.speed)
    && |s.paced| == |s.article.segments|
  }

  /** The state of a freshly mounted screen. */
  function Initial(a: Article): Session
  {
    Session(a, a.segments, false, 0, 0.0, Standard, Summary, 1.0)
  }

  /** The interval effect re-runs after a dependency changed and closes over the current article. */
  function Rearmed(s: Session): Session
  {
    s.(paced := s.article.segments)
  }

  /** One firing of the 50 ms interval; no interval exists while paused. */
  function Ticked(s: Session): Session
  {
    if !s.isPlaying then s
    else if s.progress >= Done then
      if s.index < |s.paced| - 1 then Rearmed(s.(index := s.index + 1, progress := 0.0))
      else Rearmed(s.(isPlaying := false, progress := Done))
    else s.(progress := Advanced(s.progress, SegmentAt(s.paced, s.index), s.codeMode, s.speed))
  }

  /** The play/pause button. */
  function Toggled(s: Session): Session
  {
    Rearmed(s.(isPlaying := !s.isPlaying))
  }

  /** The skip-back button. */
  function SkippedBack(s: Session): Session
  {
    if s.index > 0 then Rearmed(s.(index := s.index - 1, progress := 0.0)) else s
  }

  /** The skip-forward button. */
  function SkippedForward(s: Session): Session
  {
    if s.index < |s.article.segments| - 1 then Rearmed(s.(index := s.index + 1, progress := 0.0))
    else s
  }

  /** The speed that follows `x` on the speed button. */
  function NextSpeed(x: real): (y: real)
    ensures IsSpeed(y)
  {
    if x == 1.0 then 1.5 else if x == 1.5 then 2.0 else 1.0
  }

  /** The speed button. */
  function SpeedCycled(s: Session): Session
  {
    Rearmed(s.(speed := NextSpeed(s.speed)))
  }

  /** The code-mode selector; selecting the current mode changes nothing. */
  function WithCodeMode(s: Session, m: CodeMode): Session
  {
    if m == s.codeMode then s else Rearmed(s.(codeMode := m))
  }

  /** The scene selector; the scene is not a dependency of the interval. */
  function WithScene(s: Session, sc: SceneMode): Session
  {
    s.(scene := sc)
  }

  /** A new article prop: nothing is reset, and only a new length re-arms the interval. */
  function WithArticle(s: Session, a: Article): Session
  {
    if |a.segments| == |s.article.segments| then s.(article := a)
    else s.(article := a, paced := a.segments)
  }

  /** The segment on screen: the one at the index, or the end-of-content text. */
  function CurrentSegment(s: Session): (seg: Segment)
    ensures 0 <= s.index < |s.article.segments| ==> seg == s.article.segments[s.index]
    ensures !(0 <= s.index < |s.article.segments|) ==> seg == EndOfContent
  {
    if 0 <= s.index < |s.article.segments| then s.article.segments[s.index] else EndOfContent
  }

  /** `n` firings of the interval. */
  function Ticks(s: Session, n: nat): Session
    decreases n
  {
    if n == 0 then s else Ticks(Ticked(s), n - 1)
  }

  // ---------------------------------------------------------------- properties

  /** A freshly mounted screen is paused on segment 0 at progress 0, in summary mode at speed 1. */
  lemma InitialState(a: Article)
    ensures var s := Initial(a);
      && Valid(s) && !s.isPlaying && s.index == 0 && s.progress == 0.0
      && s.codeMode == Summary && s.speed == 1.0 && s.scene == Standard
  {
  }

  /** A tick below 100 leaves the progress below 100 plus the largest increment. */
  lemma AdvancedInRange(p: real, seg: Option<Segment>, mode: CodeMode, speed: real)
    requires 0.0 <= p < Done && IsSpeed(speed)
    ensures 0.0 <= Advanced(p, seg, mode, speed) < Done + MaxIncrement
  {
    if seg.Some? && Pace(seg.value, mode, speed).By? {
      assert Advanced(p, seg, mode, speed) <= p + speed;
    }
  }

  /** A tick keeps a valid session valid. */
  lemma TickPreservesValid(s: Session)
    requires Valid(s)
    ensures Valid(Ticked(s))
  {
    if s.isPlaying && s.progress < Done {
      AdvancedInRange(s.progress, SegmentAt(s.paced, s.index), s.codeMode, s.speed);
    }
  }

  /** Every event keeps a valid session valid. */
  lemma EventsPreserveValid(s: Session, m: CodeMode, sc: SceneMode, a: Article)
    requires Valid(s)
    ensures Valid(Ticked(s))
    ensures Valid(Toggled(s)) && Valid(SkippedBack(s)) && Valid(SkippedForward(s))
    ensures Valid(SpeedCycled(s)) && Valid(WithCodeMode(s, m)) && Valid(WithScene(s, sc))
    ensures Valid(WithArticle(s, a))
  {
    TickPreservesValid(s);
  }

  /** Time passing while paused changes nothing. */
  lemma PausedTicksChangeNothing(s: Session, n: nat)
    requires !s.isPlaying
    ensures Ticks(s, n) == s
  {
  }

  /**
   * The pace rule: below 100, a tick adds 0.5 × speed × f, with f = 1 for prose,
   * 2 for code read by label, 0.8 for code read as a summary and 1 for any
   * other mode; code in skip mode, or no segment at the index, finishes the
   * segment at once.  The index and the other settings stay as they are.
   */
  lemma PaceRule(s: Session)
    requires s.isPlaying && s.progress < Done
    ensures var t := Ticked(s);
      && t == s.(progress := t.progress)
      && (match SegmentAt(s.paced, s.index)
          case None => t.progress == Done
          case Some(Text(_)) => t.progress == s.progress + 0.5 * s.speed
          case Some(Code(_, _, _, _)) =>
            match s.codeMode
            case Skip => t.progress == Done
            case Label => t.progress == s.progress + 0.5 * s.speed * 2.0
            case Summary => t.progress == s.progress + 0.5 * s.speed * 0.8
            case OtherCodeMode(_) => t.progress == s.progress + 0.5 * s.speed)
  {
  }

  /**
   * At 100 or above a tick moves on: to the next segment at progress 0, still
   * playing, when there is one; otherwise it stops at 100 on the same index.
   */
  lemma SegmentEnd(s: Session)
    requires s.isPlaying && s.progress >= Done
    ensures var t := Ticked(s);
      && t.article == s.article && t.speed == s.speed && t.codeMode == s.codeMode
      && (s.index < |s.paced| - 1 ==> t.index == s.index + 1 && t.progress == 0.0 && t.isPlaying)
      && (s.index >= |s.paced| - 1 ==> t.index == s.index && t.progress == Done && !t.isPlaying)
  {
  }

  /**
   * A tick from below 100 never lands at or past 100 by more than the
   * current speed, which bounds the increment; the roll-over itself waits for
   * the next tick.
   */
  lemma Overshoot(s: Session)
    requires Valid(s) && s.isPlaying && s.progress < Done
    ensures var t := Ticked(s);
      t.index == s.index && t.isPlaying && s.progress < t.progress < Done + s.speed
  {
    var seg := SegmentAt(s.paced, s.index);
    if seg.Some? && Pace(seg.value, s.codeMode, s.speed).By? {
      assert Pace(seg.value, s.codeMode, s.speed).amount >= 0.4;
    }
  }

  /**
   * Each tick while playing makes headway: it gains at least 0.4 of progress
   * or finishes the segment on the same index, or moves to the next index, or
   * stops.
   */
  lemma Headway(s: Session)
    requires Valid(s) && s.isPlaying
    ensures var t := Ticked(s);
      || (t.index == s.index && t.isPlaying && s.progress < Done
          && (t.progress >= s.progress + 0.4 || t.progress == Done))
      || (t.index == s.index + 1 && s.index < |s.paced| - 1 && t.isPlaying && t.progress == 0.0)
      || !t.isPlaying
  {
    if s.progress < Done {
      var seg := SegmentAt(s.paced, s.index);
      if seg.Some? && Pace(seg.value, s.codeMode, s.speed).By? {
        assert Pace(seg.value, s.codeMode, s.speed).amount >= 0.4;
      }
    }
  }

  /** Ticks are composable. */
  lemma {:induction false} TicksAdd(s: Session, m: nat, n: nat)
    ensures Ticks(s, m + n) == Ticks(Ticks(s, m), n)
    decreases m
  {
    if m > 0 {
      TicksAdd(Ticked(s), m - 1, n);
    }
  }

  /** An upper bound on the ticks left in the current segment. */
  ghost function TicksLeftInSegment(p: real): nat
  {
    if p >= Done then 0 else ((Done - p) * 2.5).Floor + 1
  }

  /** The segments still to come after the current one. */
  ghost function SegmentsAhead(s: Session): nat
  {
    if s.index < |s.paced| - 1 then |s.paced| - 1 - s.index else 0
  }

  lemma GainShortensSegment(p: real, q: real)
    requires p < Done && (q >= p + 0.4 || q == Done)
    ensures TicksLeftInSegment(q) < TicksLeftInSegment(p)
  {
    if q < Done {
      assert (Done - q) * 2.5 <= (Done - p) * 2.5 - 1.0;
    }
  }

  /**
   * Playing always ends: from any valid playing session, some number of ticks
   * stops playback at progress 100 on the last segment (or on the index it
   * already had, when that lies past the last segment).
   */
  lemma {:induction false} PlaybackEnds(s: Session) returns (n: nat)
    requires Valid(s) && s.isPlaying
    ensures var t := Ticks(s, n);
      && !t.isPlaying && t.progress == Done && t.article == s.article
      && t.index == (if s.index < |s.article.segments| - 1 then |s.article.segments| - 1 else s.index)
    decreases SegmentsAhead(s), TicksLeftInSegment(s.progress)
  {
    var t := Ticked(s);
    EventsPreserveValid(s, s.codeMode, s.scene, s.article);
    Headway(s);
    if !t.isPlaying {
      SegmentEnd(s);
      if s.progress < Done {
        Overshoot(s);
      }
      n := 1;
    } else {
      if s.progress < Done {
        GainShortensSegment(s.progress, t.progress);
      }
      var m := PlaybackEnds(t);
      n := m + 1;
    }
  }

  /** Skipping forward and then back from an inner index returns to it, at progress 0. */
  lemma SkipRoundTrips(s: Session)
    ensures 0 <= s.index < |s.article.segments| - 1 ==>
      SkippedBack(SkippedForward(s)).index == s.index && SkippedBack(SkippedForward(s)).progress == 0.0
    ensures 0 < s.index < |s.article.segments| ==>
      SkippedForward(SkippedBack(s)).index == s.index && SkippedForward(SkippedBack(s)).progress == 0.0
  {
  }

  /**
   * The skip buttons do nothing at the ends, and never touch playing, speed,
   * code mode or the article.
   */
  lemma SkipGuards(s: Session)
    ensures s.index <= 0 ==> SkippedBack(s) == s
    ensures s.index >= |s.article.segments| - 1 ==> SkippedForward(s) == s
    ensures var b, f := SkippedBack(s), SkippedForward(s);
      && b.isPlaying == f.isPlaying == s.isPlaying
      && b.speed == f.speed == s.speed && b.codeMode == f.codeMode == s.codeMode
      && b.article == f.article == s.article
  {
  }

  /** The speed button cycles 1 → 1.5 → 2 → 1; three presses restore any valid speed. */
  lemma SpeedCycle(x: real)
    ensures x == 1.0 ==> NextSpeed(x) == 1.5
    ensures x == 1.5 ==> NextSpeed(x) == 2.0
    ensures !(x == 1.0 || x == 1.5) ==> NextSpeed(x) == 1.0
    ensures IsSpeed(x) ==> NextSpeed(NextSpeed(NextSpeed(x))) == x
  {
  }

  /** In skip mode a code segment completes on the very next tick, whatever the speed. */
  lemma SkipModeCompletesCode(s: Session)
    requires s.isPlaying && s.progress < Done && s.codeMode == Skip
    requires 0 <= s.index < |s.paced| && s.paced[s.index].Code?
    ensures Ticked(s).progress == Done && Ticked(s).isPlaying && Ticked(s).index == s.index
  {
  }

  /**
   * A new article resets nothing; if it has as many segments as the old one,
   * a running interval keeps pacing by the old segments.
   */
  lemma ArticleSwapKeepsState(s: Session, a: Article)
    ensures var t := WithArticle(s, a);
      && t.article == a && t.index == s.index && t.progress == s.progress
      && t.isPlaying == s.isPlaying && t.speed == s.speed && t.codeMode == s.codeMode
    ensures |a.segments| == |s.article.segments| && s.progress < Done ==>
      Ticked(WithArticle(s, a)) == Ticked(s).(article := a)
  {
  }

  /**
   * Playing an article with no segments is not refused: the first tick sets
   * the progress to 100 and the second one stops.
   */
  lemma EmptyArticle(a: Article)
    requires a.segments == []
    ensures var s := Toggled(Initial(a));
      && s.isPlaying
      && Ticked(s) == s.(progress := Done)
      && Ticks(s, 2) == s.(progress := Done, isPlaying := false)
  {
    var s := Toggled(Initial(a));
    assert Ticks(s, 2) == Ticked(Ticked(s));
  }

  /** Ticks on a prose segment below 100 add 0.5 × speed each. */
  lemma {:induction false} ProseTicks(s: Session, n: nat)
    requires s.isPlaying && 0 <= s.index < |s.paced| && s.paced[s.index].Text? && IsSpeed(s.speed)
    requires s.progress + 0.5 * s.speed * (n as real - 1.0) < Done
    ensures Ticks(s, n) == s.(progress := s.progress + 0.5 * s.speed * n as real)
    decreases n
  {
    if n > 0 {
      var t := Ticked(s);
      assert t == s.(progress := s.progress + 0.5 * s.speed);
      ProseTicks(t, n - 1);
    }
  }

  /**
   * Two prose segments at speed 1: 200 ticks (10 s) finish the first, the
   * next tick moves to the second, 200 more finish it and one more stops.
   */
  lemma TwoProseSegments(a: Article)
    requires |a.segments| == 2 && a.segments[0].Text? && a.segments[1].Text?
    ensures var s := Toggled(Initial(a));
      && Ticks(s, 200) == s.(progress := Done)
      && Ticks(s, 201) == s.(index := 1, progress := 0.0)
      && Ticks(s, 401) == s.(index := 1, progress := Done)
      && Ticks(s, 402) == s.(index := 1, progress := Done, isPlaying := false)
  {
    var s := Toggled(Initial(a));
    ProseTicks(s, 200);
    TicksAdd(s, 200, 1);
    var s1 := s.(index := 1, progress := 0.0);
    ProseTicks(s1, 200);
    TicksAdd(s, 201, 200);
    TicksAdd(s, 401, 1);
  }

  // ---------------------------------------------------------------- the screen

  /** The screen's state, updated in place by the interval and the buttons. */
  class Player {
    var article: Article
    var paced: seq<Segment>
    var isPlaying: bool
    var currentSegmentIndex: int
    var progress: real
    var sceneMode: SceneMode
    var codeMode: CodeMode
    var playbackSpeed: real

    function State(): Session
      reads this
    {
      Session(article, paced, isPlaying, currentSegmentIndex, progress, sceneMode, codeMode, playbackSpeed)
    }

    ghost predicate Inv()
      reads this
    {
      Valid(State())
    }

    /** Mounting the screen with an article. */
    constructor (a: Article)
      ensures State() == Initial(a) && Inv()
      ensures !isPlaying && currentSegmentIndex == 0 && progress == 0.0
      ensures codeMode == Summary && playbackSpeed == 1.0 && sceneMode == Standard
    {
      article, paced := a, a.segments;
      isPlaying, currentSegmentIndex, progress := false, 0, 0.0;
      sceneMode, codeMode, playbackSpeed := Standard, Summary, 1.0;
    }

    /** 50 ms of time passing: one firing of the interval, if one is running. */
    method Tick()
      requires Inv()
      modifies this
      ensures State() == Ticked(old(State())) && Inv()
    {
      EventsPreserveValid(State(), codeMode, sceneMode, article);
      if !isPlaying {
        return;
      }
      if progress >= Done {
        if currentSegmentIndex < |paced| - 1 {
          currentSegmentIndex := currentSegmentIndex + 1;
          progress := 0.0;
        } else {
          isPlaying := false;
          progress := Done;
        }
        paced := article.segments;
        return;
      }
      if !(0 <= currentSegmentIndex < |paced|) {
        progress := Done;
        return;
      }
      var seg := paced[currentSegmentIndex];
      var speedFactor := 1.0;
      if seg.Code? {
        if codeMode == Skip {
          progress := Done;
          return;
        }
        if codeMode == Label {
          speedFactor := 2.0;
        }
        if codeMode == Summary {
          speedFactor := 0.8;
        }
      }
      progress := progress + BaseRate * playbackSpeed * speedFactor;
    }

    method PlayPause()
      requires Inv()
      modifies this
      ensures State() == Toggled(old(State())) && Inv()
    {
      EventsPreserveValid(State(), codeMode, sceneMode, article);
      isPlaying := !isPlaying;
      paced := article.segments;
    }

    method SkipBack()
      requires Inv()
      modifies this
      ensures State() == SkippedBack(old(State())) && Inv()
    {
      EventsPreserveValid(State(), codeMode, sceneMode, article);
      if currentSegmentIndex > 0 {
        currentSegmentIndex := currentSegmentIndex - 1;
        progress := 0.0;
        paced := article.segments;
      }
    }

    method SkipForward()
      requires Inv()
      modifies this
      ensures State() == SkippedForward(old(State())) && Inv()
    {
      EventsPreserveValid(State(), codeMode, sceneMode, article);
      if currentSegmentIndex < |article.segments| - 1 {
        currentSegmentIndex := currentSegmentIndex + 1;
        progress := 0.0;
        paced := article.segments;
      }
    }

    /** The speed button (`handleSpeedChange`). */
    method CycleSpeed()
      requires Inv()
      modifies this
      ensures State() == SpeedCycled(old(State())) && Inv()
    {
      EventsPreserveValid(State(), codeMode, sceneMode, article);
      playbackSpeed := if playbackSpeed == 1.0 then 1.5 else if playbackSpeed == 1.5 then 2.0 else 1.0;
      paced := article.segments;
    }

    method SetCodeMode(m: CodeMode)
      requires Inv()
      modifies this
      ensures State() == WithCodeMode(old(State()), m) && Inv()
    {
      EventsPreserveValid(State(), m, sceneMode, article);
      if m != codeMode {
        codeMode := m;
        paced := article.segments;
      }
    }

    method SetSceneMode(sc: SceneMode)
      requires Inv()
      modifies this
      ensures State() == WithScene(old(State()), sc) && Inv()
    {
      EventsPreserveValid(State(), codeMode, sc, article);
      sceneMode := sc;
    }

    /** The parent passes a different article. */
    method SetArticle(a: Article)
      requires Inv()
      modifies this
      ensures State() == WithArticle(old(State()), a) && Inv()
    {
      EventsPreserveValid(State(), codeMode, sceneMode, a);
      if |a.segments| != |article.segments| {
        paced := a.segments;
      }
      article := a;
    }
  }
}
