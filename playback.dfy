/**
 * The playback-position policy of DefaultMediaLib: setLastPlayed decides,
 * from an item's duration and the current position, what to record as the
 * last-played memo of the library root and of a container, and whether to
 * touch the item's own watched / position preferences; getLastPlayedPosition
 * reads a resume position back.
 */
module Playback {
  import opened Wrappers
  import ItemCache

  const MIN_LONG: int := -0x8000_0000_0000_0000
  const MAX_LONG: int := 0x7fff_ffff_ffff_ffff

  /** Java `long`: positions and durations, in milliseconds. */
  type Long = x: int | MIN_LONG <= x <= MAX_LONG

  /** Java's `a - b` on longs, wrapping around modulo 2^64. */
  function LongSub(a: Long, b: Long): (r: Long)
    ensures MIN_LONG <= a - b <= MAX_LONG ==> r == a - b
    ensures r == a - b || r == a - b - 0x1_0000_0000_0000_0000 || r == a - b + 0x1_0000_0000_0000_0000
  {
    var d := a - b;
    if d > MAX_LONG then d - 0x1_0000_0000_0000_0000
    else if d < MIN_LONG then d + 0x1_0000_0000_0000_0000
    else d
  }

  /** How close to the end (in ms) counts as finished. */
  const NEAR_END: int := 1000

  /** `(dur - position) <= 1000`, with the subtraction as Java evaluates it. */
  predicate NearEnd(dur: Long, position: Long): (b: bool)
    ensures MIN_LONG <= dur - position <= MAX_LONG ==> (b <==> dur - position <= NEAR_END)
    ensures dur - position > MAX_LONG ==> b
    ensures dur - position < MIN_LONG ==> (b <==> dur - position + 0x1_0000_0000_0000_0000 <= NEAR_END)
  {
    LongSub(dur, position) <= NEAR_END
  }

  /** The integer approximation `10 * position > 9 * dur` of Java's float test `position > dur * 0.9f`. */
  predicate PastWatchedMark(dur: Long, position: Long): (b: bool)
    ensures b <==> position > (9 * dur) / 10
  {
    10 * (position as int) > 9 * (dur as int)
  }

  /** A last-played memo: the pair (last played item id, position) that the root and every container keep. */
  datatype Memo = Memo(item: Option<string>, pos: Long)

  /** What happens to the item's own preferences. */
  datatype ItemWrite = Untouched | MarkWatched | SavePosition(pos: Long)

  /**
   * The outcome of setLastPlayed: the memo written to the root and to one
   * container (the next item's parent when `toNext`, else the item's own
   * parent), and the write to the item's preferences.
   */
  datatype Decision = Decision(memo: Memo, toNext: bool, itemWrite: ItemWrite)

  /** The policy of setLastPlayed for an item, given the outcome of getNextPlayable (`None` for null or failure). */
  function Decide(id: string, video: bool, dur: Long, position: Long, next: Option<string>): (d: Decision)
    ensures d.toNext <==> dur > 0 && NearEnd(dur, position) && next.Some?
    ensures d.memo.item == Some(if d.toNext then next.value else id)
    ensures dur > 0 && !NearEnd(dur, position) ==> d.memo.pos == position
    ensures dur <= 0 || NearEnd(dur, position) ==> d.memo.pos == 0
    ensures d.itemWrite != Untouched <==> video && dur > 0 && !NearEnd(dur, position)
    ensures d.itemWrite == MarkWatched <==> video && dur > 0 && !NearEnd(dur, position) && PastWatchedMark(dur, position)
    ensures d.itemWrite.SavePosition? ==> d.itemWrite.pos == position
  {
    if dur <= 0 then
      Decision(Memo(Some(id), 0), false, Untouched)
    else if NearEnd(dur, position) then
      match next
      case Some(n) => Decision(Memo(Some(n), 0), true, Untouched)
      case None => Decision(Memo(Some(id), 0), false, Untouched)
    else
      Decision(Memo(Some(id), position), false,
               if !video then Untouched
               else if PastWatchedMark(dur, position) then MarkWatched
               else SavePosition(position))
  }

  /** getLastPlayedPosition on values: a video's own position, else the parent's memo position when the memo names this item, else 0. */
  function ResumePosition(id: string, video: bool, itemPosition: Long, parentMemo: Memo): (r: Long)
    ensures video ==> r == itemPosition
    ensures !video && r != 0 ==> parentMemo.item == Some(id) && r == parentMemo.pos
    ensures !video && parentMemo.item == Some(id) ==> r == parentMemo.pos
  {
    if video then itemPosition
    else if parentMemo.item.Some? && parentMemo.item.value == id then parentMemo.pos
    else 0
  }

  /** For non-negative positions no wrap-around happens: near the end means `dur - position <= 1000`. */
  lemma NearEndWithoutWrap(dur: Long, position: Long)
    requires 0 <= dur && 0 <= position
    ensures NearEnd(dur, position) <==> dur - position <= NEAR_END
  {
  }

  /**
   * Recording and resuming agree: after a mid-playback record the item
   * resumes where it was (a video below the watched mark through its own
   * position, any other item through its parent's memo); a non-video
   * recorded as unbounded, or as finished with no next item, resumes at 0.
   * (A finished item with a next item writes the memo of the next item's
   * parent, so this lemma says nothing about it.)
   */
  lemma ResumeAfterRecord(id: string, video: bool, dur: Long, position: Long, next: Option<string>, oldPosition: Long)
    ensures var d := Decide(id, video, dur, position, next);
      var itemPosition := if d.itemWrite.SavePosition? then d.itemWrite.pos else oldPosition;
      && (dur > 0 && !NearEnd(dur, position) && !(video && PastWatchedMark(dur, position)) ==>
            ResumePosition(id, video, itemPosition, d.memo) == position)
      && (!video && !d.toNext && (dur <= 0 || NearEnd(dur, position)) ==>
            ResumePosition(id, video, itemPosition, d.memo) == 0)
  {
  }

  /** Finishing an item snaps forward: with duration 10000 and position 9200, the next item is recorded at 0. */
  lemma NearEndSnapsToNext(a: string, b: string, video: bool)
    ensures Decide(a, video, 10000, 9200, Some(b)) == Decision(Memo(Some(b), 0), true, Untouched)
  {
  }

  /** An unbounded item is recorded at 0 whatever the position, and its own preferences stay untouched. */
  lemma UnboundedRecordsZero(id: string, video: bool, dur: Long, position: Long, next: Option<string>)
    requires dur <= 0
    ensures Decide(id, video, dur, position, next) == Decision(Memo(Some(id), 0), false, Untouched)
  {
  }

  /**
   * A one-second video never reaches the watched rule: every non-negative
   * position is within 1000 ms of its end, so position 950 snaps forward
   * rather than marking it watched.
   */
  lemma ShortItemAlwaysNearEnd(id: string, position: Long, next: Option<string>)
    requires 0 <= position
    ensures !Decide(id, true, 1000, position, next).itemWrite.MarkWatched?
    ensures Decide(id, true, 1000, position, next).memo.pos == 0
  {
  }

  /** The watched mark at 90%: a 100 s video at 95 s is marked watched, at 80 s its position is saved. */
  lemma WatchedMark(id: string)
    ensures Decide(id, true, 100000, 95000, None) == Decision(Memo(Some(id), 95000), false, MarkWatched)
    ensures Decide(id, true, 100000, 80000, None) == Decision(Memo(Some(id), 80000), false, SavePosition(80000))
  {
  }

  /** The last-played preferences of the library root or of a browsable container. */
  class LastPlayedPrefs {
    var item: Option<string>
    var pos: Long

    constructor ()
      ensures item == None && pos == 0
    {
      item := None;
      pos := 0;
    }

    /** The memo these preferences currently hold. */
    function Current(): Memo
      reads this
    {
      Memo(item, pos)
    }
  }

  /** The preferences of a playable item. */
  class ItemPrefs {
    var position: Long
    var watched: bool

    constructor ()
      ensures position == 0 && !watched
    {
      position := 0;
      watched := false;
    }
  }

  /** A playable item: the cached item it is (and so its id), its video flag, duration, its own preferences and its parent container's. */
  class PlayableItem {
    const item: ItemCache.Item
    const video: bool
    const duration: Long
    const prefs: ItemPrefs
    const parent: LastPlayedPrefs

    constructor (item: ItemCache.Item, video: bool, duration: Long, prefs: ItemPrefs, parent: LastPlayedPrefs)
      ensures this.item == item && this.video == video && this.duration == duration
      ensures this.prefs == prefs && this.parent == parent
    {
      this.item := item;
      this.video := video;
      this.duration := duration;
      this.prefs := prefs;
      this.parent := parent;
    }
  }

  function IdOf(next: Option<PlayableItem>): Option<string>
  {
    match next
    case Some(n) => Some(n.item.id)
    case None => None
  }

  function ParentsOf(next: Option<PlayableItem>): set<LastPlayedPrefs>
  {
    match next
    case Some(n) => {n.parent}
    case None => {}
  }

  /**
   * setLastPlayed: the writes of `Decide` to the root's memo, to the memo of
   * the chosen container, and to the item's preferences; the completion of
   * getNextPlayable is taken as already delivered in `next`.
   */
  method SetLastPlayed(root: LastPlayedPrefs, i: PlayableItem, position: Long, next: Option<PlayableItem>)
    modifies root, i.parent, i.prefs, ParentsOf(next)
    ensures var d := Decide(i.item.id, i.video, i.duration, position, IdOf(next));
      && root.Current() == d.memo
      && (if d.toNext then next.value.parent else i.parent).Current() == d.memo
      && (d.toNext && i.parent != root && i.parent != next.value.parent ==> unchanged(i.parent))
      && (next.Some? && !d.toNext && next.value.parent != root && next.value.parent != i.parent ==>
            unchanged(next.value.parent))
      && i.prefs.watched == (old(i.prefs.watched) || d.itemWrite == MarkWatched)
      && i.prefs.position == (if d.itemWrite.SavePosition? then position else old(i.prefs.position))
    ensures var d := Decide(i.item.id, i.video, i.duration, position, IdOf(next));
      var resume := ResumePosition(i.item.id, i.video, i.prefs.position, i.parent.Current());
      && (i.duration > 0 && !NearEnd(i.duration, position) && !(i.video && PastWatchedMark(i.duration, position)) ==>
            resume == position)
      && (!i.video && (!d.toNext || next.value.parent == i.parent) && d.memo.item != Some(i.item.id) ==>
            resume == 0)
  {
    var dur := i.duration;

    if dur <= 0 {
      var id := i.item.id;
      var p := i.parent;
      root.item := Some(id);
      root.pos := 0;
      p.item := Some(id);
      p.pos := 0;
      return;
    }

    if LongSub(dur, position) <= NEAR_END {
      var n := if next.Some? then next.value else i;
      var nextId := n.item.id;
      var nextPrefs := n.parent;
      root.item := Some(nextId);
      root.pos := 0;
      nextPrefs.item := Some(nextId);
      nextPrefs.pos := 0;
      return;
    }

    var id := i.item.id;
    var p := i.parent;

    if i.video {
      if PastWatchedMark(dur, position) {
        i.prefs.watched := true;
      } else {
        i.prefs.position := position;
      }
    }

    root.item := Some(id);
    root.pos := position;
    p.item := Some(id);
    p.pos := position;
  }
}
