/**
 * The music store: the play queue's position, the play order, the history of
 * positions, the running list and its ids, the current lyrics and the
 * background colours.
 *
 * The store's reactive `index` is a JavaScript number. It can become `NaN`
 * (`(index + 1) % 0` on an empty queue), so it is modelled as `Number`. The
 * remote calls become inputs: a lyric text, a smart-list response and the
 * result of `randomNum`. Requests for a track or a smart list are recorded in
 * a trace. The `watch` on `index` runs after each operation: when `index`
 * ended different from where it started, the old value is pushed on the
 * history.
 */
module MusicStore {
  import opened Wrappers
  import opened JsString
  import opened LyricParser

  /** A JavaScript number as the store's index can hold it. */
  datatype Number = Num(value: int) | NaN

  /** Modes: 0 heartbeat (smart list), 1 list loop, 2 shuffle, 3 repeat one. */
  type Mode = m: int | 0 <= m <= 3

  /** `specialType` 5 marks the user's liked-songs list. */
  const LikedList: int := 5

  /** The name shown for the liked-songs list. */
  const LikedListName: string := "我喜欢的歌单"

  datatype Track = Track(id: int, name: string)

  /**
   * A play list as the store sees it. An absent `specialType` is any value
   * other than 5: the store only ever compares it with 5.
   */
  datatype PlayList = PlayList(id: int, name: string, specialType: int, tracks: seq<Track>)

  /** One entry of a smart-list response; `songInfo` may be `null`. */
  datatype SmartItem = SmartItem(id: int, songInfo: Option<Track>)

  datatype Request =
    | TrackRequest(item: Option<Track>)                   // `getMusicUrlHandler(item)`; `None` is `undefined`
    | SmartListRequest(listId: int, songId: Option<int>)  // `getIntelliganceList(runtimeList.id, songs.id, …)`

  /** `state.songs`: the `{}` it starts as, the track last handed to `getMusicUrlHandler`, or `undefined`. */
  datatype CurrentSong = NoSong | Song(track: Track) | UndefinedSong

  /** `state.songs = item`. */
  function Assigned(item: Option<Track>): CurrentSong {
    if item.Some? then Song(item.value) else UndefinedSong
  }

  /** `songs.id`: `undefined` on `{}`; `songs` itself `undefined` makes it throw, which callers rule out. */
  function SongId(songs: CurrentSong): Option<int> {
    if songs.Song? then Some(songs.track.id) else None
  }

  // ---------------------------------------------------------------------------
  // JavaScript number arithmetic

  function Add(x: Number, d: int): Number {
    if x.NaN? then NaN else Num(x.value + d)
  }

  /** `x > b`; false for `NaN`. */
  predicate Greater(x: Number, b: int) {
    x.Num? && x.value > b
  }

  /** `x < b`; false for `NaN`. */
  predicate Less(x: Number, b: int) {
    x.Num? && x.value < b
  }

  /** `a % n`: `NaN` for `n == 0`, otherwise the remainder takes the sign of `a`. */
  function JsRem(a: int, n: int): Number {
    if n == 0 then NaN
    else
      var m := if n < 0 then -n else n;
      if a >= 0 then Num(a % m) else Num(-((-a) % m))
  }

  /** `tracks[x]`: `undefined` unless `x` is a position of `tracks`. */
  function TrackAt(tracks: seq<Track>, x: Number): Option<Track> {
    if x.Num? && 0 <= x.value < |tracks| then Some(tracks[x.value]) else None
  }

  /** Where `cutSongHandler` moves `index` in the ordered modes: one step, wrapping at both ends of `n` ids. */
  function Stepped(x: Number, forward: bool, n: int): Number {
    var y := Add(x, if forward then 1 else -1);
    if Greater(y, n - 1) then Num(0) else if Less(y, 0) then Num(n - 1) else y
  }

  /** On a position of a non-empty queue, stepping is moving by one modulo the length. */
  lemma SteppedWraps(i: int, forward: bool, n: int)
    requires 0 <= i < n
    ensures Stepped(Num(i), forward, n) == Num(if forward then (i + 1) % n else (i - 1 + n) % n)
    ensures 0 <= Stepped(Num(i), forward, n).value < n
  {
    if forward {
      if i + 1 == n {
        ModOfSmall(0, n);
        assert i + 1 == 0 + n;
      } else {
        ModOfSmall(i + 1, n);
      }
    } else {
      if i == 0 {
        ModOfSmall(n - 1, n);
      } else {
        ModOfSmall(i - 1, n);
        assert i - 1 + n == (i - 1) + n;
      }
    }
  }

  /** A remainder of a number already below the divisor. */
  lemma ModOfSmall(a: int, n: int)
    requires 0 <= a < n
    ensures a % n == a && (a + n) % n == a
  {
  }

  /** The fallback of shuffle's "previous": the last history entry unless it is absent, 0 or `NaN`. */
  function PreviousInHistory(history: seq<Number>, fallback: Number): Number {
    if |history| > 0 && history[|history| - 1].Num? && history[|history| - 1].value != 0
    then history[|history| - 1]
    else fallback
  }

  // ---------------------------------------------------------------------------
  // Pure parts

  /** `data.filter((item) => !!item.songInfo).map((item) => item.songInfo!)`. */
  function SongsOf(data: seq<SmartItem>): (songs: seq<Track>)
    ensures |songs| <= |data|
  {
    if data == [] then []
    else (if data[0].songInfo.Some? then [data[0].songInfo.value] else []) + SongsOf(data[1..])
  }

  /** `tracks.map((item) => item.id)`. */
  function IdsOf(tracks: seq<Track>): seq<int> {
    seq(|tracks|, k requires 0 <= k < |tracks| => tracks[k].id)
  }

  /** The smart list keeps exactly the tracks of entries that have one. */
  lemma {:induction false} SongsOfMembers(data: seq<SmartItem>, t: Track)
    ensures t in SongsOf(data) <==> exists j :: 0 <= j < |data| && data[j].songInfo == Some(t)
  {
    if data != [] {
      SongsOfMembers(data[1..], t);
      if t in SongsOf(data[1..]) {
        var j :| 0 <= j < |data[1..]| && data[1..][j].songInfo == Some(t);
        assert data[j + 1].songInfo == Some(t);
      }
      if exists j :: 0 <= j < |data| && data[j].songInfo == Some(t) {
        var j :| 0 <= j < |data| && data[j].songInfo == Some(t);
        if j > 0 {
          assert data[1..][j - 1].songInfo == Some(t);
        }
      }
    }
  }

  /** Filtering keeps order: the songs of two responses one after the other are the songs of each in turn. */
  lemma {:induction false} SongsOfAppend(a: seq<SmartItem>, b: seq<SmartItem>)
    ensures SongsOf(a + b) == SongsOf(a) + SongsOf(b)
  {
    if a != [] {
      var head := if a[0].songInfo.Some? then [a[0].songInfo.value] else [];
      assert (a + b)[0] == a[0] && (a + b)[1..] == a[1..] + b;
      assert SongsOf(a + b) == head + SongsOf(a[1..] + b);
      SongsOfAppend(a[1..], b);
      assert head + (SongsOf(a[1..]) + SongsOf(b)) == (head + SongsOf(a[1..])) + SongsOf(b);
    } else {
      assert a + b == b;
    }
  }

  /** The decimal strings of a colour's components. */
  function NumberStrings(color: seq<int>): seq<string> {
    if color == [] then [] else [IntToString(color[0])] + NumberStrings(color[1..])
  }

  /** `color.join(', ')`. */
  function ColorString(color: seq<int>): string {
    Join(NumberStrings(color), ", ")
  }

  /** `colors.map((color) => color.join(', '))`. */
  function ColorStrings(colors: seq<seq<int>>): seq<string> {
    seq(|colors|, k requires 0 <= k < |colors| => ColorString(colors[k]))
  }

  /** Reading a colour back: split at commas, trim, `parseInt`. */
  function ReadColor(s: string): seq<int> {
    Numbers(Split(s, ','))
  }

  function Numbers(pieces: seq<string>): seq<int> {
    if pieces == [] then [] else [IntOfString(Trim(pieces[0]))] + Numbers(pieces[1..])
  }

  /** A colour string gives back its components. */
  lemma {:induction false} ColorRoundTrip(color: seq<int>)
    requires color != []
    ensures ReadColor(ColorString(color)) == color
  {
    var a := IntToString(color[0]);
    IntToStringChars(color[0]);
    TrimIntToString(color[0]);
    IntToStringRoundTrip(color[0]);
    if |color| == 1 {
      assert NumberStrings(color) == [a];
      SplitWithoutSeparator(a, ',');
      assert Numbers([a]) == [color[0]] + Numbers([]);
      assert color == [color[0]];
    } else {
      var rest := NumberStrings(color[1..]);
      assert NumberStrings(color) == [a] + rest;
      assert ([a] + rest)[1..] == rest;
      var x := ColorString(color[1..]);
      assert ColorString(color) == a + [','] + ([' '] + x);
      SplitAtFirst(a, ',', [' '] + x);
      var tail := Split([' '] + x, ',');
      assert ([a] + tail)[1..] == tail;
      LeadingSpace(x);
      ColorRoundTrip(color[1..]);
    }
  }

  /** A space after a comma does not change what is read. */
  lemma LeadingSpace(x: string)
    ensures ReadColor([' '] + x) == ReadColor(x)
  {
    var s := [' '] + x;
    assert s[1..] == x;
    var rest := Split(x, ',');
    var first := [' '] + rest[0];
    assert Split(s, ',') == [first] + rest[1..];
    assert first[1..] == rest[0];
    assert Trim(first) == Trim(rest[0]);
    assert ([first] + rest[1..])[1..] == rest[1..];
  }

  // ---------------------------------------------------------------------------
  // The store

  class Store {
    var index: Number
    var orderStatusVal: Mode
    var runtimeList: Option<PlayList>
    var runtimeIds: seq<int>
    /** `lastIndexList`: the positions played before, most recent last. */
    var lastIndexList: seq<Number>
    var lyric: seq<LyricLine>
    var noTimestamp: bool
    var bgColor: seq<string>
    var currentItem: Option<PlayList>
    var songs: CurrentSong
    /** Requests issued, oldest first. */
    var requests: seq<Request>
    /** Smart-list requests whose response has not arrived. */
    var pendingSmartLists: nat

    /** The store's initial state. */
    constructor ()
      ensures index == Num(0) && orderStatusVal == 0 && runtimeList == None && runtimeIds == []
      ensures lastIndexList == [] && lyric == [] && !noTimestamp && bgColor == [] && currentItem == None && songs == NoSong
      ensures requests == [] && pendingSmartLists == 0
    {
      index, orderStatusVal, runtimeList, runtimeIds := Num(0), 0, None, [];
      lastIndexList, lyric, noTimestamp, bgColor, currentItem, songs := [], [], false, [], None, NoSong;
      requests, pendingSmartLists := [], 0;
    }

    /** `orderTarget(mode)`; `random` is what `randomNum(0, runtimeIds.length - 1)` returns. */
    function OrderTarget(mode: Mode, random: Number): (target: Number)
      reads this
      ensures mode <= 1 && index.Num? && index.value >= -1 && |runtimeIds| > 0 ==>
        target.Num? && 0 <= target.value < |runtimeIds|
    {
      if mode == 0 || mode == 1 then
        if index.NaN? then NaN else JsRem(index.value + 1, |runtimeIds|)
      else if mode == 2 then random
      else index
    }

    /**
     * The ordered modes go to the next position, back to 0 after the last,
     * and to `NaN` without ids; shuffle takes the random position; repeat-one
     * stays.
     */
    lemma OrderTargetSpec(mode: Mode, random: Number)
      ensures mode == 2 ==> OrderTarget(mode, random) == random
      ensures mode == 3 ==> OrderTarget(mode, random) == index
      ensures mode <= 1 && |runtimeIds| == 0 ==> OrderTarget(mode, random) == NaN
      ensures mode <= 1 && index.Num? && -1 <= index.value < |runtimeIds| && |runtimeIds| > 0 ==>
        OrderTarget(mode, random) == Num(if index.value + 1 == |runtimeIds| then 0 else index.value + 1)
    {
      if mode <= 1 && index.Num? && -1 <= index.value < |runtimeIds| && |runtimeIds| > 0 {
        var n := |runtimeIds|;
        if index.value + 1 == n {
          assert n % n == 0;
        } else {
          assert (index.value + 1) % n == index.value + 1;
        }
      }
    }

    /** The `watch` on `index`: the value it had before the operation is pushed when it changed. */
    method IndexWatcher(before: Number)
      modifies this`lastIndexList
      ensures lastIndexList == old(lastIndexList) + if index != before then [before] else []
    {
      if index != before {
        lastIndexList := lastIndexList + [before];
      }
    }

    /**
     * `getMusicUrlHandler(state.runtimeList!.tracks[position])`; throws without
     * a running list. The handler first stores the track, `undefined` included,
     * as `songs`.
     */
    method RequestTrack(position: Number) returns (threw: bool)
      modifies this`requests, this`songs
      ensures threw == runtimeList.None?
      ensures requests == old(requests) + if threw then [] else [TrackRequest(TrackAt(runtimeList.value.tracks, position))]
      ensures songs == if threw then old(songs) else Assigned(TrackAt(runtimeList.value.tracks, position))
    {
      if runtimeList.None? {
        return true;
      }
      var item := TrackAt(runtimeList.value.tracks, position);
      requests := requests + [TrackRequest(item)];
      songs := Assigned(item);
      return false;
    }

    /** `playEnd`: move to the next position of the play order and request it unless it is past the ids. */
    method PlayEnd(random: Number) returns (threw: bool)
      modifies this`index, this`lastIndexList, this`requests, this`songs
      ensures index == old(OrderTarget(orderStatusVal, random))
      ensures lastIndexList == old(lastIndexList) + if index != old(index) then [old(index)] else []
      ensures threw == (!Greater(index, |runtimeIds| - 1) && runtimeList.None?)
      ensures requests == old(requests) +
        if Greater(index, |runtimeIds| - 1) || runtimeList.None? then []
        else [TrackRequest(TrackAt(runtimeList.value.tracks, index))]
      ensures songs ==
        if Greater(index, |runtimeIds| - 1) || runtimeList.None? then old(songs)
        else Assigned(TrackAt(runtimeList.value.tracks, index))
    {
      var before := index;
      index := OrderTarget(orderStatusVal, random);
      threw := false;
      if !Greater(index, |runtimeIds| - 1) {
        threw := RequestTrack(index);
      }
      IndexWatcher(before);
    }

    /**
     * `cutSongHandler(target)`: next (`target`) or previous song. The ordered
     * modes step by one with wrap-around; shuffle's "previous" replays the
     * last history entry and drops it; shuffle's "next" is `playEnd`.
     */
    method CutSong(target: bool, random: Number) returns (threw: bool)
      modifies this`index, this`lastIndexList, this`requests, this`songs
      ensures old(orderStatusVal) != 2 ==>
        index == Stepped(old(index), target, |runtimeIds|)
        && lastIndexList == old(lastIndexList) + (if index != old(index) then [old(index)] else [])
        && threw == runtimeList.None?
        && requests == old(requests) + (if threw then [] else [TrackRequest(TrackAt(runtimeList.value.tracks, index))])
        && songs == if threw then old(songs) else Assigned(TrackAt(runtimeList.value.tracks, index))
      ensures old(orderStatusVal) == 2 && !target ==>
        index == old(index)
        && threw == runtimeList.None?
        && lastIndexList == (if threw || old(lastIndexList) == [] then old(lastIndexList)
                             else old(lastIndexList)[..|old(lastIndexList)| - 1])
        && requests == old(requests) +
             (if threw then [] else [TrackRequest(TrackAt(runtimeList.value.tracks, PreviousInHistory(old(lastIndexList), random)))])
        && songs == if threw then old(songs) else Assigned(TrackAt(runtimeList.value.tracks, PreviousInHistory(old(lastIndexList), random)))
      ensures old(orderStatusVal) == 2 && target ==>
        index == random
        && lastIndexList == old(lastIndexList) + (if index != old(index) then [old(index)] else [])
        && threw == (!Greater(index, |runtimeIds| - 1) && runtimeList.None?)
        && requests == old(requests) +
             (if Greater(index, |runtimeIds| - 1) || runtimeList.None? then []
              else [TrackRequest(TrackAt(runtimeList.value.tracks, index))])
        && songs ==
             if Greater(index, |runtimeIds| - 1) || runtimeList.None? then old(songs)
             else Assigned(TrackAt(runtimeList.value.tracks, index))
    {
      if orderStatusVal != 2 {
        var before := index;
        index := Add(index, if target then 1 else -1);
        if Greater(index, |runtimeIds| - 1) {
          index := Num(0);
        } else if Less(index, 0) {
          index := Num(|runtimeIds| - 1);
        }
        threw := RequestTrack(index);
        IndexWatcher(before);
        return;
      }
      if !target {
        var i := PreviousInHistory(lastIndexList, OrderTarget(orderStatusVal, random));
        threw := RequestTrack(i);
        if !threw && |lastIndexList| > 0 {
          lastIndexList := lastIndexList[..|lastIndexList| - 1];
        }
        return;
      }
      threw := PlayEnd(random);
    }

    /**
     * `updateRuntimeList(list, ids)`: the list and ids start playing; the
     * heartbeat mode only survives on the liked-songs list, and there it asks
     * for the smart list, unless `songs` is `undefined`.
     */
    method UpdateRuntimeList(list: PlayList, ids: seq<int>)
      modifies this`orderStatusVal, this`runtimeList, this`runtimeIds, this`requests, this`pendingSmartLists
      ensures runtimeList == Some(list) && runtimeIds == ids
      ensures orderStatusVal == if old(orderStatusVal) == 0 && list.specialType != LikedList then 1 else old(orderStatusVal)
      ensures orderStatusVal == 0 <==> old(orderStatusVal) == 0 && list.specialType == LikedList
      ensures if orderStatusVal == 0 && !songs.UndefinedSong? then
                requests == old(requests) + [SmartListRequest(list.id, SongId(songs))]
                && pendingSmartLists == old(pendingSmartLists) + 1
              else requests == old(requests) && pendingSmartLists == old(pendingSmartLists)
    {
      if list.specialType != LikedList && orderStatusVal == 0 {
        orderStatusVal := 1;
      }
      runtimeList := Some(list);
      runtimeIds := ids;
      RequestSmartList();
    }

    /**
     * The synchronous part of `getIntelliganceListHandler`: ask for the smart
     * list of the liked-songs list in heartbeat mode. With `songs` undefined,
     * reading `songs.id` throws inside the async handler: nothing is asked.
     */
    method RequestSmartList()
      modifies this`requests, this`pendingSmartLists
      ensures if orderStatusVal == 0 && runtimeList.Some? && runtimeList.value.specialType == LikedList
                 && !songs.UndefinedSong? then
                requests == old(requests) + [SmartListRequest(runtimeList.value.id, SongId(songs))]
                && pendingSmartLists == old(pendingSmartLists) + 1
              else requests == old(requests) && pendingSmartLists == old(pendingSmartLists)
    {
      if orderStatusVal != 0 || runtimeList.None? || runtimeList.value.specialType != LikedList {
        return;
      }
      if songs.UndefinedSong? {
        return;
      }
      requests := requests + [SmartListRequest(runtimeList.value.id, SongId(songs))];
      pendingSmartLists := pendingSmartLists + 1;
    }

    /** The rest of `getIntelliganceListHandler`, once a response `data` arrives: the running list gets its songs. */
    method SmartListArrives(data: seq<SmartItem>)
      requires pendingSmartLists > 0
      modifies this`runtimeList, this`runtimeIds, this`pendingSmartLists
      ensures pendingSmartLists == old(pendingSmartLists) - 1
      ensures runtimeList.Some? <==> old(runtimeList).Some?
      ensures runtimeList.Some? ==>
        runtimeList == Some(old(runtimeList).value.(tracks := SongsOf(data)))
        && |runtimeIds| == |SongsOf(data)|
        && forall k :: 0 <= k < |runtimeIds| ==> runtimeIds[k] == SongsOf(data)[k].id
      ensures runtimeList.None? ==> runtimeIds == old(runtimeIds)
    {
      pendingSmartLists := pendingSmartLists - 1;
      var tracks := SongsOf(data);
      var ids := IdsOf(tracks);
      UpdateTracks(tracks, ids);
    }

    /** `updateTracks(tracks, ids)`: only with a running list. */
    method UpdateTracks(tracks: seq<Track>, ids: seq<int>)
      modifies this`runtimeList, this`runtimeIds
      ensures if old(runtimeList).Some? then runtimeList == Some(old(runtimeList).value.(tracks := tracks)) && runtimeIds == ids
              else runtimeList == None && runtimeIds == old(runtimeIds)
    {
      if runtimeList.Some? {
        runtimeList := Some(runtimeList.value.(tracks := tracks));
        runtimeIds := ids;
      }
    }

    /** `getLyricHandler` once the lyric text `lrc` has arrived: a single parsed line counts as none. */
    method LoadLyric(lrc: string)
      modifies this`lyric, this`noTimestamp
      ensures lyric == if |Parsed(lrc).lines| == 1 then [] else Parsed(lrc).lines
      ensures noTimestamp == Parsed(lrc).noTimestamp
    {
      var result := ParseLrc(lrc);
      lyric := result.lines;
      noTimestamp := result.noTimestamp;
      if |lyric| == 1 {
        lyric := [];
      }
    }

    /** `updateCurrentItem(val)`: the liked-songs list is shown under its fixed name. */
    method UpdateCurrentItem(item: PlayList)
      modifies this`currentItem
      ensures currentItem.Some? && currentItem.value.(name := item.name) == item
      ensures currentItem.value.name == if item.specialType == LikedList then LikedListName else item.name
    {
      currentItem := Some(item.(name := if item.specialType == LikedList then LikedListName else item.name));
    }

    /** `updateBgColor(colors)`: each colour becomes its components joined by `", "`. */
    method UpdateBgColor(colors: seq<seq<int>>)
      modifies this`bgColor
      ensures bgColor == ColorStrings(colors)
      ensures forall k :: 0 <= k < |colors| && colors[k] != [] ==> ReadColor(bgColor[k]) == colors[k]
    {
      bgColor := ColorStrings(colors);
      forall k | 0 <= k < |colors| && colors[k] != [] ensures ReadColor(bgColor[k]) == colors[k] {
        ColorRoundTrip(colors[k]);
      }
    }
  }

  /**
   * Starting the liked-songs list without tracks in heartbeat mode asks for its
   * smart list; skipping to the next song then hands `undefined` to
   * `getMusicUrlHandler`, and starting the list once more asks for nothing.
   */
  method SkipOnEmptyLikedList(list: PlayList, random: Number) returns (store: Store)
    requires list.specialType == LikedList && list.tracks == []
    ensures store.songs == UndefinedSong && store.pendingSmartLists == 1
    ensures store.requests == [SmartListRequest(list.id, None), TrackRequest(None)]
  {
    store := new Store();
    store.UpdateRuntimeList(list, []);
    var threw := store.CutSong(true, random);
    store.UpdateRuntimeList(list, []);
  }
}
