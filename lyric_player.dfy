/**
 * The lyric player: the class that keeps the highlighted line in step with
 * the audio clock, renders one element per lyric line and reacts to the
 * user's wheel and click events.
 *
 * The DOM is reduced to what the player's logic looks at: the list of line
 * elements (their `data-index`, text and class flags). Scrolling, the line
 * callbacks and clicks become entries of an `events` trace; the animation
 * frame, the scroll timer and the event-listener registration become flags
 * saying whether each is pending.
 */
module Player {
  import opened Wrappers
  import opened JsString
  import opened LyricParser

  /** One rendered `.lyric-line` element. */
  datatype LineElement = LineElement(dataIndex: string, text: string, noTimestampClass: bool, active: bool)

  /** What the player does that others can observe. */
  datatype PlayerEvent =
    | ScrollTo(index: int, immediate: bool)   // `scrollTop` set at once, or a 0.4 s animation
    | LineChange(index: int)                  // `onLineChange(index)`
    | LineClick(time: real, index: int)       // `onLineClick(time, index)`

  /** The text a line element shows: `line.text || '...'`. */
  function DisplayText(text: string): string {
    if text == [] then "..." else text
  }

  /** The element `render` creates for a lyric line. */
  function RenderedLine(line: LyricLine, noTimestamp: bool): LineElement {
    LineElement(IntToString(line.index), DisplayText(line.text), noTimestamp, false)
  }

  /** `scrollToLine(index, immediate)` on a rendered line: skipped while the user scrolls, unless immediate. */
  function Scrolls(index: int, immediate: bool, userScrolling: bool): seq<PlayerEvent> {
    if userScrolling && !immediate then [] else [ScrollTo(index, immediate)]
  }

  // ---------------------------------------------------------------------------
  // findCurrentLine

  /** The binary search of `findCurrentLine` from the bounds `left`, `right` on. */
  function Search(lyrics: seq<LyricLine>, t: real, left: nat, right: int): int
    requires -1 <= right < |lyrics|
    decreases right - left + 1
  {
    if left > right then left
    else
      var mid := (left + right) / 2;
      if t >= lyrics[mid].time && (mid == |lyrics| - 1 || t < lyrics[mid + 1].time) then mid
      else if t < lyrics[mid].time then Search(lyrics, t, left, mid - 1)
      else Search(lyrics, t, mid + 1, right)
  }

  /** `findCurrentLine(t)`: the line to highlight at time `t`. */
  function CurrentLine(lyrics: seq<LyricLine>, t: real): (r: int)
    ensures |lyrics| == 0 <==> r == -1
    ensures |lyrics| > 0 ==> 0 <= r < |lyrics|
  {
    if |lyrics| == 0 then -1
    else if t < lyrics[0].time then 0
    else if t >= lyrics[|lyrics| - 1].time then |lyrics| - 1
    else
      SearchFindsLine(lyrics, t, 0, |lyrics| - 1);
      Search(lyrics, t, 0, |lyrics| - 1)
  }

  /**
   * The search keeps `lyrics[left].time <= t < lyrics[right + 1].time`, so
   * the bounds never cross and it stops at a line whose interval holds `t`,
   * whether or not the lyrics are ordered.
   */
  lemma {:induction false} SearchFindsLine(lyrics: seq<LyricLine>, t: real, left: nat, right: int)
    requires left <= right < |lyrics|
    requires lyrics[left].time <= t && t < lyrics[|lyrics| - 1].time
    requires right + 1 < |lyrics| ==> t < lyrics[right + 1].time
    ensures var r := Search(lyrics, t, left, right);
      0 <= r < |lyrics| - 1 && lyrics[r].time <= t < lyrics[r + 1].time
    decreases right - left + 1
  {
    var mid := (left + right) / 2;
    if t >= lyrics[mid].time && (mid == |lyrics| - 1 || t < lyrics[mid + 1].time) {
    } else if t < lyrics[mid].time {
      SearchFindsLine(lyrics, t, left, mid - 1);
    } else {
      SearchFindsLine(lyrics, t, mid + 1, right);
    }
  }

  /**
   * `findCurrentLine`: -1 on no lyrics, 0 before the first line, the last line
   * from its start on, and otherwise a line whose interval holds `t`; always
   * a line of the lyrics when there are some.
   */
  lemma CurrentLineSpec(lyrics: seq<LyricLine>, t: real)
    ensures var r := CurrentLine(lyrics, t);
      (|lyrics| == 0 <==> r == -1)
      && (|lyrics| > 0 ==> 0 <= r < |lyrics|)
      && (|lyrics| > 0 && t < lyrics[0].time ==> r == 0)
      && (|lyrics| > 0 && lyrics[0].time <= t && lyrics[|lyrics| - 1].time <= t ==> r == |lyrics| - 1)
      && (|lyrics| > 0 && lyrics[0].time <= t < lyrics[|lyrics| - 1].time ==>
            r < |lyrics| - 1 && lyrics[r].time <= t < lyrics[r + 1].time)
  {
    if |lyrics| > 0 && lyrics[0].time <= t < lyrics[|lyrics| - 1].time {
      SearchFindsLine(lyrics, t, 0, |lyrics| - 1);
    }
  }

  // ---------------------------------------------------------------------------
  // The player

  class LyricPlayer {
    var lyrics: seq<LyricLine>
    var noTimestamp: bool
    var currentIndex: int
    var isPlaying: bool
    var isUserScrolling: bool
    /** `rafId`: an animation frame is scheduled. */
    var framePending: bool
    /** `scrollTimer`: the 3 s timer that ends user scrolling is scheduled. */
    var scrollTimerPending: bool
    /** The wheel and click listeners are registered on the container. */
    var listening: bool
    var lineElements: seq<LineElement>
    var events: seq<PlayerEvent>
    /** Whether the options supplied `onLineClick` and `onLineChange`. */
    const hasLineClick: bool
    const hasLineChange: bool

    /**
     * The rendered elements stand for the lyrics one to one, and exactly the
     * current line carries the `active` class.
     */
    ghost predicate Valid()
      reads this
    {
      |lineElements| == |lyrics|
      && -1 <= currentIndex
      && (|lineElements| > 0 ==> currentIndex < |lineElements|)
      && forall k :: 0 <= k < |lineElements| ==>
           lineElements[k] == RenderedLine(lyrics[k], noTimestamp).(active := k == currentIndex)
    }

    /** Positions of the elements carrying the `active` class. */
    ghost function ActiveLines(): set<int>
      reads this
    {
      set k | 0 <= k < |lineElements| && lineElements[k].active
    }

    /** The `onLineChange` call for `index`, when the callback was supplied. */
    function Changes(index: int): seq<PlayerEvent> {
      if hasLineChange then [LineChange(index)] else []
    }

    /** The effect of `updateLine(index, force)` on the highlighted line, the elements and the trace. */
    twostate predicate LineUpdated(index: int, force: bool)
      reads this
    {
      if (index == old(currentIndex) && !force) || index < 0 || index >= |old(lineElements)| then
        currentIndex == old(currentIndex) && lineElements == old(lineElements) && events == old(events)
      else
        currentIndex == index
        && |lineElements| == |old(lineElements)|
        && (forall k :: 0 <= k < |lineElements| ==> lineElements[k] == old(lineElements[k]).(active := k == index))
        && events == old(events) + Scrolls(index, force, isUserScrolling) + Changes(index)
    }

    /** `new LyricPlayer(options)`: nothing rendered, nothing scheduled, listeners registered. */
    constructor (hasLineClick: bool, hasLineChange: bool)
      ensures Valid()
      ensures this.hasLineClick == hasLineClick && this.hasLineChange == hasLineChange
      ensures lyrics == [] && lineElements == [] && !noTimestamp && currentIndex == -1
      ensures !isPlaying && !isUserScrolling && !framePending && !scrollTimerPending && listening
      ensures events == []
    {
      this.hasLineClick := hasLineClick;
      this.hasLineChange := hasLineChange;
      lyrics, lineElements, noTimestamp, currentIndex := [], [], false, -1;
      isPlaying, isUserScrolling, framePending, scrollTimerPending := false, false, false, false;
      listening := true;
      events := [];
    }

    /** Exactly the current line is highlighted while lines are rendered, and none otherwise. */
    lemma ActiveIsCurrent()
      requires Valid()
      ensures ActiveLines() == if 0 <= currentIndex && |lineElements| > 0 then {currentIndex} else {}
    {
      if 0 <= currentIndex && |lineElements| > 0 {
        assert lineElements[currentIndex].active;
      }
    }

    /** `handleWheel`: the user scrolls; the timer that ends it is restarted. */
    method Wheel()
      modifies this`isUserScrolling, this`scrollTimerPending
      ensures if listening then isUserScrolling && scrollTimerPending
              else isUserScrolling == old(isUserScrolling) && scrollTimerPending == old(scrollTimerPending)
    {
      if listening {
        isUserScrolling := true;
        scrollTimerPending := true;
      }
    }

    /** The scroll timer fires: user scrolling is over. */
    method ScrollTimerFires()
      requires scrollTimerPending
      modifies this`isUserScrolling, this`scrollTimerPending
      ensures !isUserScrolling && !scrollTimerPending
    {
      isUserScrolling := false;
      scrollTimerPending := false;
    }

    /**
     * `handleClick`: `hit` is the position of the `.lyric-line` element the
     * click landed in, if any. The callback gets the time of the line whose
     * index the element carries, provided the lyrics are timed and that index
     * is one of theirs.
     */
    method Click(hit: Option<nat>)
      requires Valid()
      requires listening && hit.Some? ==> hit.value < |lineElements|
      modifies this`events
      ensures events == old(events) +
        if listening && hit.Some? && !noTimestamp && hasLineClick && 0 <= lyrics[hit.value].index < |lyrics|
        then [LineClick(lyrics[lyrics[hit.value].index].time, lyrics[hit.value].index)]
        else []
    {
      if !listening || hit.None? || noTimestamp {
        return;
      }
      var attr := lineElements[hit.value].dataIndex;
      var index := IntOfString(if attr == [] then "0" else attr);
      IntToStringRoundTrip(lyrics[hit.value].index);
      if 0 <= index < |lyrics| && hasLineClick {
        events := events + [LineClick(lyrics[index].time, index)];
      }
    }

    /** `setLyrics(lyrics, noTimestamp)`: render, then highlight the first line of timed lyrics. */
    method SetLyrics(ls: seq<LyricLine>, nt: bool)
      modifies this`lyrics, this`noTimestamp, this`currentIndex, this`lineElements, this`events
      ensures Valid()
      ensures lyrics == ls && noTimestamp == nt
      ensures |lineElements| == |ls|
      ensures currentIndex == if !nt && |ls| > 0 then 0 else -1
      ensures events == old(events) + if !nt && |ls| > 0 then [ScrollTo(0, true)] + Changes(0) else []
    {
      lyrics := ls;
      noTimestamp := nt;
      currentIndex := -1;
      Render();
      if !nt && |ls| > 0 {
        UpdateLine(0, true);
      }
    }

    /** `render`: one fresh, inactive element per lyric line, in order. */
    method Render()
      modifies this`lineElements
      ensures |lineElements| == |lyrics|
      ensures forall k :: 0 <= k < |lyrics| ==> lineElements[k] == RenderedLine(lyrics[k], noTimestamp)
    {
      if |lyrics| == 0 {
        lineElements := [];
        return;
      }
      lineElements := [];
      for i := 0 to |lyrics|
        invariant |lineElements| == i
        invariant forall k :: 0 <= k < i ==> lineElements[k] == RenderedLine(lyrics[k], noTimestamp)
      {
        lineElements := lineElements + [RenderedLine(lyrics[i], noTimestamp)];
      }
    }

    /** `findCurrentLine(time)`: the binary search over the lyrics. */
    method FindCurrentLine(time: real) returns (r: int)
      ensures r == CurrentLine(lyrics, time)
    {
      if |lyrics| == 0 {
        return -1;
      }
      var left, right := 0, |lyrics| - 1;
      if time < lyrics[0].time {
        return 0;
      }
      if time >= lyrics[right].time {
        return right;
      }
      while left <= right
        invariant 0 <= left < |lyrics| && -1 <= right < |lyrics| && left <= right + 1
        invariant lyrics[left].time <= time
        invariant right + 1 < |lyrics| ==> time < lyrics[right + 1].time
        invariant Search(lyrics, time, left, right) == CurrentLine(lyrics, time)
        decreases right - left + 1
      {
        var mid := (left + right) / 2;
        var midTime := lyrics[mid].time;
        // `nextTime` is `Infinity` past the last line
        var beforeNext := mid == |lyrics| - 1 || time < lyrics[mid + 1].time;
        if time >= midTime && beforeNext {
          return mid;
        }
        if time < midTime {
          right := mid - 1;
        } else {
          left := mid + 1;
        }
      }
      // the bounds bracket `time`, so the search returns before they cross
      assert false;
      return left;
    }

    /**
     * `updateLine(index, force)`: unless the line is already current (and not
     * forced) or out of range, move the highlight, scroll to it and report it.
     */
    method UpdateLine(index: int, force: bool)
      requires Valid()
      modifies this`currentIndex, this`lineElements, this`events
      ensures Valid()
      ensures LineUpdated(index, force)
    {
      if index == currentIndex && !force {
        return;
      }
      if index < 0 || index >= |lineElements| {
        return;
      }
      if 0 <= currentIndex < |lineElements| {
        lineElements := lineElements[currentIndex := lineElements[currentIndex].(active := false)];
      }
      currentIndex := index;
      lineElements := lineElements[index := lineElements[index].(active := true)];
      ScrollToLine(index, force);
      if hasLineChange {
        events := events + [LineChange(index)];
      }
    }

    /** `scrollToLine(index, immediate)`. */
    method ScrollToLine(index: int, immediate: bool)
      modifies this`events
      ensures events == old(events) + if 0 <= index < |lineElements| then Scrolls(index, immediate, isUserScrolling) else []
    {
      if isUserScrolling && !immediate {
        return;
      }
      if !(0 <= index < |lineElements|) {
        return;
      }
      events := events + [ScrollTo(index, immediate)];
    }

    /**
     * `timeLoop` at audio time `t`: while timed lyrics play, follow the clock
     * and schedule the next frame; otherwise do nothing.
     */
    method TimeLoop(t: real)
      requires Valid()
      modifies this`currentIndex, this`lineElements, this`events, this`framePending
      ensures Valid()
      ensures if !isPlaying || noTimestamp then
                currentIndex == old(currentIndex) && lineElements == old(lineElements)
                && events == old(events) && framePending == old(framePending)
              else LineUpdated(CurrentLine(lyrics, t), false) && framePending
    {
      if !isPlaying || noTimestamp {
        return;
      }
      var index := FindCurrentLine(t);
      if index != currentIndex {
        UpdateLine(index, false);
      }
      framePending := true;
    }

    /** The scheduled animation frame runs `timeLoop`. */
    method FrameFires(t: real)
      requires Valid() && framePending
      modifies this`currentIndex, this`lineElements, this`events, this`framePending
      ensures Valid()
      ensures if !isPlaying || noTimestamp then
                currentIndex == old(currentIndex) && lineElements == old(lineElements)
                && events == old(events) && !framePending
              else LineUpdated(CurrentLine(lyrics, t), false) && framePending
    {
      framePending := false;
      TimeLoop(t);
    }

    /** `startLoop`: any scheduled frame is replaced by a new one. */
    method StartLoop()
      modifies this`framePending
      ensures framePending
    {
      framePending := true;
    }

    /** `stopLoop`: the scheduled frame, if any, is cancelled. */
    method StopLoop()
      modifies this`framePending
      ensures !framePending
    {
      framePending := false;
    }

    /** `play`: ignored for untimed lyrics; otherwise playing, with the loop scheduled. */
    method Play()
      modifies this`isPlaying, this`framePending
      ensures if noTimestamp then isPlaying == old(isPlaying) && framePending == old(framePending)
              else isPlaying && framePending
    {
      if noTimestamp {
        return;
      }
      isPlaying := true;
      StartLoop();
    }

    /** `pause`: not playing, no frame scheduled. */
    method Pause()
      modifies this`isPlaying, this`framePending
      ensures !isPlaying && !framePending
    {
      isPlaying := false;
      StopLoop();
    }

    /**
     * `syncIndex` after a seek to audio time `t`: highlight the line for `t`
     * even if it is current already, and restart the loop while playing.
     */
    method SyncIndex(t: real)
      requires Valid()
      modifies this`currentIndex, this`lineElements, this`events, this`framePending
      ensures Valid()
      ensures if noTimestamp then
                currentIndex == old(currentIndex) && lineElements == old(lineElements)
                && events == old(events) && framePending == old(framePending)
              else LineUpdated(CurrentLine(lyrics, t), true) && framePending == (old(framePending) || isPlaying)
    {
      if noTimestamp {
        return;
      }
      var index := FindCurrentLine(t);
      UpdateLine(index, true);
      if isPlaying {
        StartLoop();
      }
    }

    /** `getIndex`. */
    method GetIndex() returns (index: int)
      ensures index == currentIndex
    {
      return currentIndex;
    }

    /** `getPlayStatus`. */
    method GetPlayStatus() returns (playing: bool)
      ensures playing == isPlaying
    {
      return isPlaying;
    }

    /**
     * `destroy`: cancel the frame and the scroll timer, unregister the
     * listeners and drop the lines. `isPlaying`, `currentIndex` and
     * `isUserScrolling` keep their values.
     */
    method Destroy()
      requires Valid()
      modifies this`framePending, this`scrollTimerPending, this`listening, this`lineElements, this`lyrics
      ensures Valid()
      ensures !framePending && !scrollTimerPending && !listening
      ensures lineElements == [] && lyrics == []
    {
      StopLoop();
      listening := false;
      scrollTimerPending := false;
      lineElements := [];
      lyrics := [];
    }
  }
}
