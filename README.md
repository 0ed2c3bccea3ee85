# Lyric synchronisation and playback state of the music client

This project models the parts of the desktop music client that carry real
logic, and proves properties of each:

- **The LRC parser** (`parseTime`, `parseLRC`). It turns lyric text into
  timed lines. Metadata rows are skipped. The time-tag regular expression is
  followed exactly, lines with several tags are expanded, and lyrics without
  usable times are marked as untimed. Timed lyrics are sorted by time when
  some line carried several tags. They are then re-indexed and given
  durations that run up to the next line, with 5 s for the last line.
  `Parsed` states `parseLRC` as a function of the text. The method
  `ParseLrc` follows the loops of `parseLRC`, including an in-place sort on
  an array, and is proved to compute `Parsed`.
- **The lyric player** (class `LyricPlayer`). It renders one element per
  line and finds the current line by binary search. It moves the `active`
  highlight, and scrolls unless the user is scrolling, except for the forced
  scroll on new lyrics and on a seek. It handles clicks, the
  frame loop, play, pause, seek and destroy. The invariant `Valid` says two
  things: the elements stand for the lyrics one to one, and exactly the
  current line is highlighted. Every operation keeps it.
- **The music store**. It holds the position in the play queue, the four
  play modes, the history of positions that the `watch` on `index` builds,
  the running list and its ids, the smart (heartbeat) list, the current
  lyrics, the selected list and the background colours.
- **The audio listener registry** (`useListener`). It keeps two tables of
  callback arrays. The arrays are shared by reference after
  `playSomethingListener`, and the model keeps that aliasing with heap
  objects.

The JavaScript built-ins are modelled where they are used:

- `JsString` holds `trim`, `split`, `join`, `String(n)` and `parseInt`.
- `LyricParser.SecondsValue` and `LyricParser.FractionValue` stand for the
  `parseFloat` of `parseTime`.
- `MusicStore` holds the number cases the store can reach: `Number` with
  `NaN`, and `JsRem`, for `%` taking the sign of the dividend.

The code bounds the play history nowhere (`music.ts` lines 57-62), and it
applies every smart-list response when it arrives (lines 210-233). The model
keeps both.

`findCurrentLine` needs no ordering of the lyrics (`Player.CurrentLineSpec`):

- it returns -1 with no lyrics;
- it returns 0 before the first line's start;
- it returns the last line from that line's start on;
- otherwise it returns a line whose interval from its start to the next
  line's start holds the time.

Its final `return left` cannot be reached, and
`Player.LyricPlayer.FindCurrentLine` proves that.

## Model

| member | source | states |
|---|---|---|
| LyricParser.ParseTime | src/renderer/src/utils/lyric/parser.ts:22-28 | a parsed time is never negative |
| LyricParser.ParseTimeWhole | src/renderer/src/utils/lyric/parser.ts:22-28 | a body `mm:ss` is minutes * 60 + seconds |
| LyricParser.ParseTimeDot | src/renderer/src/utils/lyric/parser.ts:22-28 | a body `mm:ss.fff` adds the decimal fraction to minutes * 60 + seconds |
| LyricParser.ParseTimeColon | src/renderer/src/utils/lyric/parser.ts:22-28 | a body `mm:ss:fff` has two colons and gives 0 |
| LyricParser.ParseTimeExample | src/renderer/src/utils/lyric/parser.ts:18-28 | the documented example: `01:02.410` is 62.41 seconds |
| LyricParser.TagAt | src/renderer/src/utils/lyric/parser.ts:53 | a match starts where it was tried, is at least 5 characters long and ends inside the line |
| LyricParser.TagAtShape | src/renderer/src/utils/lyric/parser.ts:53 | every accepted tag has the shape `[d{1,2}:d{1,2}]`, optionally with `.` or `:` and 1 to 3 fraction digits before the `]` |
| LyricParser.TagAtComplete | src/renderer/src/utils/lyric/parser.ts:53 | text of that shape is always matched, with exactly those positions |
| LyricParser.NextTagIsLeftmost | src/renderer/src/utils/lyric/parser.ts:58 | `exec` finds the leftmost match at or after `lastIndex`; when it fails, no position matches |
| LyricParser.TagsFrom | src/renderer/src/utils/lyric/parser.ts:58-61 | the repeated `exec` loop finds tags in order of position, without overlaps |
| LyricParser.TagsFromAreMatches | src/renderer/src/utils/lyric/parser.ts:58-61 | each tag the loop finds is a match of the regular expression at its own position, with its shape |
| LyricParser.WholeTagTime | src/renderer/src/utils/lyric/parser.ts:53-59 | a tag `[mm:ss]` is given minutes * 60 + seconds |
| LyricParser.FractionTagTime | src/renderer/src/utils/lyric/parser.ts:53-59 | a tag `[mm:ss.fff]` adds its fraction; a tag `[mm:ss:fff]` matches the regular expression but is given time 0 |
| LyricParser.NextTag | src/renderer/src/utils/lyric/parser.ts:58 | one `exec` from `lastIndex`: a match found lies at or after `lastIndex` and inside the line |
| LyricParser.SplitLines | src/renderer/src/utils/lyric/parser.ts:41 | the text splits into one more piece than it has line feeds |
| LyricParser.SplitLinesJoin | src/renderer/src/utils/lyric/parser.ts:41 | the lines joined again with `\n` give back the text, with the `\r` of every `\r\n` removed |
| LyricParser.NonBlank | src/renderer/src/utils/lyric/parser.ts:41 | the lines that are kept are never blank, and there are no more of them than before |
| LyricParser.NonBlankMembers | src/renderer/src/utils/lyric/parser.ts:41 | a line is kept exactly when it is one of the input lines and is not blank |
| LyricParser.NonBlankAppend | src/renderer/src/utils/lyric/parser.ts:41 | the filter keeps the input order: filtering two runs of lines in turn is filtering them together |
| LyricParser.ScanTimeTags | src/renderer/src/utils/lyric/parser.ts:53-61 | the scanning loop gives the times of all matched tags in order, and `lastIndex` is the end of the last one (0 when there is none) |
| LyricParser.ParseLine | src/renderer/src/utils/lyric/parser.ts:46-81 | one loop iteration pushes the entries the line's kind calls for, counts untimed entries, and flags lines with several tags |
| LyricParser.PushTimed | src/renderer/src/utils/lyric/parser.ts:79-81 | one entry per time, in order, with duration 0, index 0 and the shared text |
| LyricParser.CollectLines | src/renderer/src/utils/lyric/parser.ts:45-82 | the main loop collects the entries of all lines in order, and `needSort` says whether some line had several tags |
| LyricParser.IndexInOrder | src/renderer/src/utils/lyric/parser.ts:87 | the untimed branch replaces each index by its position and changes nothing else |
| LyricParser.AssignDurations | src/renderer/src/utils/lyric/parser.ts:97-104 | the last loop gives the final indices and durations |
| LyricParser.SortByTime | src/renderer/src/utils/lyric/parser.ts:92-94 | the in-place sort leaves the array equal to the stable sort by time of its old contents |
| LyricParser.InsertInto | src/renderer/src/utils/lyric/parser.ts:92-94 | one insertion step moves the element left past the later entries and leaves the rest of the array alone |
| LyricParser.SortedByTimeIsOrdered | src/renderer/src/utils/lyric/parser.ts:92-94 | the sorted entries are ordered by time |
| LyricParser.SortedByTimeIsPermutation | src/renderer/src/utils/lyric/parser.ts:92-94 | sorting rearranges the entries and adds or drops none |
| LyricParser.SortedByTimeIsStable | src/renderer/src/utils/lyric/parser.ts:92-94 | entries of equal time keep their input order |
| LyricParser.Parsed | src/renderer/src/utils/lyric/parser.ts:35-107 | `parseLRC` as a function of the text: it neither drops nor invents entries, giving none for blank text and otherwise one line per collected entry |
| LyricParser.ParseLrc | src/renderer/src/utils/lyric/parser.ts:35-107 | `parseLRC` computes exactly `Parsed` of its input |
| LyricParser.ParsedBlank | src/renderer/src/utils/lyric/parser.ts:37-39 | empty or whitespace-only text gives no lines, marked untimed |
| LyricParser.SkippedLineEntries | src/renderer/src/utils/lyric/parser.ts:46-50 | `{...}` JSON rows and `[xx:...]` metadata rows contribute nothing |
| LyricParser.UntimedLineEntries | src/renderer/src/utils/lyric/parser.ts:63-70 | a line with no tag gives one entry at time 0 carrying its trimmed text and the running counter, or nothing when blank |
| LyricParser.TimedLineTags | src/renderer/src/utils/lyric/parser.ts:58-61 | on a line where the regular expression matches somewhere, the scan finds at least one tag, and every found tag is a genuine match |
| LyricParser.TimedLineEntries | src/renderer/src/utils/lyric/parser.ts:72-81 | a line with tags gives one entry per tag, in tag order, at that tag's time, all sharing the trimmed text after the last tag |
| LyricParser.CollectedEntries | src/renderer/src/utils/lyric/parser.ts:45-82 | every collected entry has duration 0 and a time that is not negative |
| LyricParser.ParsedNoTimestamp | src/renderer/src/utils/lyric/parser.ts:84-89 | lyrics are marked untimed exactly when the text is blank or there are entries and all of them are at time 0 |
| LyricParser.ParsedUntimed | src/renderer/src/utils/lyric/parser.ts:84-89 | untimed lyrics are the collected entries in input order, indexed by position, at time 0 with duration 0 |
| LyricParser.ParsedNothingCollected | src/renderer/src/utils/lyric/parser.ts:84-106 | text whose lines give no entries parses to no lines, marked timed |
| LyricParser.ParsedTimed | src/renderer/src/utils/lyric/parser.ts:91-106 | timed lyrics: see below the table |
| LyricParser.TimedOrder | src/renderer/src/utils/lyric/parser.ts:91-104 | the timed result is the duration pass over either the collected entries or their stable sort, according to `needSort` |
| LyricParser.WithDurationsKeepsEntries | src/renderer/src/utils/lyric/parser.ts:96-104 | the duration pass keeps each entry's time and text, makes indices positions, sets durations to the gaps to the next line and 5 s for the last |
| LyricParser.WithDurationsOfOrdered | src/renderer/src/utils/lyric/parser.ts:91-104 | on entries ordered by time, no duration is negative and the order is kept |
| Player.SearchFindsLine | src/renderer/src/utils/lyric/player.ts:140-155 | while the bounds bracket `t`, the binary search stops at a line whose interval `[time, next time)` holds `t` |
| Player.CurrentLine | src/renderer/src/utils/lyric/player.ts:128-158 | the line `findCurrentLine` picks: -1 exactly when there are no lyrics, otherwise a position of the lyrics |
| Player.CurrentLineSpec | src/renderer/src/utils/lyric/player.ts:128-158 | `findCurrentLine` cases: see below the table |
| Player.LyricPlayer.constructor | src/renderer/src/utils/lyric/player.ts:19-36 | a new player has nothing rendered, nothing scheduled, index -1 and its listeners registered |
| Player.LyricPlayer.ActiveIsCurrent | src/renderer/src/utils/lyric/player.ts:163-181 | under the invariant, the only highlighted element is the current line, and none is highlighted when nothing is rendered |
| Player.LyricPlayer.Wheel | src/renderer/src/utils/lyric/player.ts:46-54 | a wheel event marks the user as scrolling and restarts the timer |
| Player.LyricPlayer.ScrollTimerFires | src/renderer/src/utils/lyric/player.ts:51-53 | when the timer fires, user scrolling is over |
| Player.LyricPlayer.Click | src/renderer/src/utils/lyric/player.ts:56-66 | a click on a line of timed lyrics reports the time and index of the line its `data-index` names, when that index is in range; otherwise nothing happens |
| Player.LyricPlayer.SetLyrics | src/renderer/src/utils/lyric/player.ts:71-80 | new lyrics are rendered, and timed non-empty lyrics get line 0 highlighted, scrolled to at once and reported |
| Player.LyricPlayer.Render | src/renderer/src/utils/lyric/player.ts:85-123 | one inactive element per lyric line, in order, showing its index, its text or `...`, and the untimed flag |
| Player.LyricPlayer.FindCurrentLine | src/renderer/src/utils/lyric/player.ts:128-158 | the loop computes `CurrentLine`, and the final `return left` is never reached |
| Player.LyricPlayer.UpdateLine | src/renderer/src/utils/lyric/player.ts:163-181 | unless the line is already current (and not forced) or out of range, exactly it becomes highlighted, one scroll and one change callback follow, and the invariant holds |
| Player.LyricPlayer.ScrollToLine | src/renderer/src/utils/lyric/player.ts:186-190 | scrolls only to a rendered line, and not while the user scrolls unless it is immediate |
| Player.LyricPlayer.TimeLoop | src/renderer/src/utils/lyric/player.ts:210-221 | while timed lyrics play, a frame moves the highlight to the line of the current time and schedules the next frame; otherwise nothing changes |
| Player.LyricPlayer.FrameFires | src/renderer/src/utils/lyric/player.ts:210-221 | a scheduled frame runs `timeLoop`: while timed lyrics play the highlight follows the clock and a new frame is scheduled; otherwise the frame is used up and no new one is scheduled |
| Player.LyricPlayer.StartLoop | src/renderer/src/utils/lyric/player.ts:223-228 | a frame is scheduled |
| Player.LyricPlayer.StopLoop | src/renderer/src/utils/lyric/player.ts:230-235 | no frame is scheduled |
| Player.LyricPlayer.Play | src/renderer/src/utils/lyric/player.ts:240-244 | untimed lyrics ignore play; otherwise playing with the loop scheduled |
| Player.LyricPlayer.Pause | src/renderer/src/utils/lyric/player.ts:249-252 | not playing and no frame scheduled |
| Player.LyricPlayer.SyncIndex | src/renderer/src/utils/lyric/player.ts:257-267 | after a seek, the line of the new time is highlighted even if already current, and the loop is rescheduled while playing |
| Player.LyricPlayer.GetIndex | src/renderer/src/utils/lyric/player.ts:272-274 | the current line index |
| Player.LyricPlayer.GetPlayStatus | src/renderer/src/utils/lyric/player.ts:279-281 | whether the player is playing |
| Player.LyricPlayer.Destroy | src/renderer/src/utils/lyric/player.ts:286-297 | frame and scroll timer cancelled, listeners removed, lines and lyrics dropped, invariant kept |
| MusicStore.SteppedWraps | src/renderer/src/store/music.ts:184-189 | on a position of a non-empty queue, next and previous move by one modulo the queue length and stay in range |
| MusicStore.SongsOf | src/renderer/src/store/music.ts:225-229 | the songs of a smart-list response: never more than its entries |
| MusicStore.SongsOfMembers | src/renderer/src/store/music.ts:225-229 | the smart list holds exactly the songs of the response entries that have one |
| MusicStore.SongsOfAppend | src/renderer/src/store/music.ts:225-229 | filtering keeps the response order |
| MusicStore.ColorRoundTrip | src/renderer/src/store/music.ts:205-208 | a colour string reads back, by splitting at commas and `parseInt`, to the components it was made from |
| MusicStore.Store.constructor | src/renderer/src/store/music.ts:40-56 | the store's initial state |
| MusicStore.Store.OrderTarget | src/renderer/src/store/music.ts:163-173 | the play-order target; in the ordered modes, from any position (or -1) of a non-empty queue, it is a position of the queue |
| MusicStore.Store.OrderTargetSpec | src/renderer/src/store/music.ts:163-173 | the ordered modes go to the next position, back to 0 after the last, and to `NaN` without ids; shuffle takes the random position; repeat-one stays |
| MusicStore.Store.IndexWatcher | src/renderer/src/store/music.ts:57-62 | the history gains the old index exactly when `index` changed |
| MusicStore.Store.RequestTrack | src/renderer/src/store/music.ts:113-115 | the track at the position (undefined out of range) is requested and stored as `songs`, or a TypeError is thrown without a running list and nothing changes |
| MusicStore.Store.PlayEnd | src/renderer/src/store/music.ts:174-180 | the index becomes the play-order target, the history grows by one entry exactly when it changed, and the track is requested, and stored as `songs`, unless the index is past the ids |
| MusicStore.Store.CutSong | src/renderer/src/store/music.ts:182-201 | ordered modes step with wrap-around; shuffle "previous" replays the last history entry or falls back, and drops that entry; shuffle "next" is `playEnd` |
| MusicStore.Store.UpdateRuntimeList | src/renderer/src/store/music.ts:71-79 | the list and ids are installed; heartbeat mode survives exactly on the liked-songs list, and there a smart-list request goes out unless `songs` is `undefined` |
| MusicStore.Store.RequestSmartList | src/renderer/src/store/music.ts:210-223 | a smart list, with the current song's id, is requested exactly in heartbeat mode on the running liked-songs list, and not when reading `songs.id` throws because `songs` is `undefined` |
| MusicStore.Store.SmartListArrives | src/renderer/src/store/music.ts:225-233 | a response replaces the running list's tracks by the songs it carries and the ids by theirs |
| MusicStore.Store.UpdateTracks | src/renderer/src/store/music.ts:80-85 | tracks and ids change only when there is a running list |
| MusicStore.Store.LoadLyric | src/renderer/src/store/music.ts:87-95 | the store holds the parsed lyrics, except that a single line counts as none, and takes the untimed flag from the parser |
| MusicStore.Store.UpdateCurrentItem | src/renderer/src/store/music.ts:66-70 | the selected list is stored unchanged except for its name, which is the fixed liked-songs name exactly for that list |
| MusicStore.SkipOnEmptyLikedList | src/renderer/src/store/music.ts:71-233 | starting an empty liked-songs list, skipping forward and starting the list again gives one smart-list request, then one request for an `undefined` track, and no second smart-list request |
| MusicStore.Store.UpdateBgColor | src/renderer/src/store/music.ts:205-208 | each colour becomes a string that reads back to its components |
| AudioListener.CallbackList.Push | src/renderer/src/components/MusicPlayer/listener.ts:38-39 | the array gains the callback at its end |
| AudioListener.Registry.constructor | src/renderer/src/components/MusicPlayer/listener.ts:26-35 | six distinct empty arrays, none shared between the tables |
| AudioListener.Registry.AddListener | src/renderer/src/components/MusicPlayer/listener.ts:37-40 | the callback is added to both arrays of the name, so twice to a shared array; other names are untouched |
| AudioListener.Registry.ExecuteListener | src/renderer/src/components/MusicPlayer/listener.ts:41-49 | every active callback of the name runs once, in order |
| AudioListener.Registry.PauseSomethingListener | src/renderer/src/components/MusicPlayer/listener.ts:50-56 | a non-empty active array is saved and replaced by a new empty one; an empty one changes nothing, so a second pause keeps the saved callbacks |
| AudioListener.Registry.PlaySomethingListener | src/renderer/src/components/MusicPlayer/listener.ts:57-59 | the saved array becomes active and both tables then share it |
| AudioListener.Registry.AddEach | src/renderer/src/components/MusicPlayer/listener.ts:37-40 | adding several callbacks to an unshared name appends them, in order, to both of its arrays |
| AudioListener.Registry.PauseAddPlay | src/renderer/src/components/MusicPlayer/listener.ts:37-59 | pausing, adding and firing runs only the added callbacks; after play the old callbacks are back, followed by the added ones, in a shared array |
| AudioListener.Registry.PlayThenAdd | src/renderer/src/components/MusicPlayer/listener.ts:37-59 | after play, one added callback runs twice on each firing, because both tables push it onto the same array |

Two rows need a longer statement.

`LyricParser.ParsedTimed` says this about timed lyrics:

- indices are positions;
- each duration is the gap to the next line's start, and the last line gets 5 s;
- the entries keep input order unless some line carried several tags;
- if some line did, they follow the stable sort by time, are ordered, and no
  duration is negative.

`Player.CurrentLineSpec` says this about `findCurrentLine`:

- it returns -1 exactly when there are no lyrics, and a line of the lyrics
  otherwise;
- before the first line it returns 0;
- from the last line's start on it returns the last line;
- in between it returns a line whose interval holds the time, whether or not
  the lyrics are ordered.

## Left out

- The asynchronous handlers do I/O: `getMusicUrlHandler`, `getLyricHandler`'s
  fetch, `getDynamicCoverHandler`, `updateScrobble`, the audio element calls
  and `localStorage`. In the model, track requests become entries of a trace.
  A lyric text and a smart-list response become inputs.
- The `index` assignment that `getMusicUrlHandler` makes after its `await` is
  left out. It only runs when a caller passes a position, and none of the
  modelled operations do.
- `updateState` (`Object.assign` of arbitrary data) and `updateSearchList`
  are not modelled, because they store whatever they are given. The state
  fields `musicUrl`, `videoPlayUrl`, `load`, `currentTime` and `searchList`
  are left out for the same reason: only those handlers and the I/O write
  them. `songs` is modelled, because the smart-list request reads it. It is
  set where `getMusicUrlHandler` stores its argument, before any I/O.
- The audio wiring in `onMounted` of `listener.ts` (lines 9-24) is left out.
  It registers the DOM audio events that call `executeListener`.
- The player's DOM is reduced. Pixel arithmetic and the `gsap` animation of
  `scrollToLine` (`player.ts` lines 191-203) become a `ScrollTo` event. Timers,
  animation frames and listener registration become flags.
- `randomNum` becomes a parameter of any value. Its bounds are not assumed.
- Numbers: `-0` is not told apart from `0`. Times are exact reals, not
  64-bit floats, which is exact for every time a tag can carry.
- MusicStore.PlayList: an absent `specialType` is modelled as any value other
  than 5. The `Partial` list that `updateCurrentItem` takes is modelled as a
  whole list. Aliasing between the running list and the selected list is not
  modelled.
- Player.LyricPlayer.Click: it requires the invariant. So the `data-index` it
  reads is always the `String(index)` that `render` wrote, and `parseInt` of
  any other text matters only through that round trip.
- LyricParser.ParseLrc: it takes only strings. A `null` or `undefined`
  argument (the `!lrcStr` guard) is not modelled.
- AudioListener.Registry.ExecuteListener: callbacks are taken not to call back
  into the registry. So the length read before the loop matters only as the
  loop bound.
- MusicStore.Store.SmartListArrives: a response is a separate step, and
  responses can arrive in any order. As in the code, nothing checks whether a
  response is stale.
- LyricParser.SortByTime: `Array.prototype.sort` with the time comparator is
  modelled as a stable insertion sort. The language has required `sort` to be
  stable since ECMAScript 2019, so the resulting order is the same.
- MusicStore.Store.OrderTargetSpec: the next position in the ordered modes is
  stated for indices from -1 to the last position. Elsewhere `OrderTarget`
  gives the JavaScript remainder, which the lemma does not restate.
- Strings are sequences of characters. No Unicode handling beyond that is
  modelled.
