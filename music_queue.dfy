/** The value side of the music cog (cogs/music.py): queue entries, Python
    list editing as `remove` and `move` use it, the track-end continuation
    step, the queue listing, seek-position parsing and `format_time`. */
module MusicQueue {
  import opened PyText

  type Guild = nat

  /** A playable handle returned by the playback backend's search. */
  datatype Track = Track(title: string, uri: string, lengthMs: nat)

  /** The dict built for every album or playlist item before it is resolved. */
  datatype CatalogEntry = CatalogEntry(
    query: string, title: string, artist: string, album: string,
    coverUrl: Option<string>, spotifyUrl: string)

  /** What a guild's queue holds: a bare track (single-track `play`) or a
      `(track, track_info)` tuple (album and playlist `play`). */
  datatype QueueEntry = Bare(track: Track) | WithInfo(track: Track, info: CatalogEntry)

  /** The three values `loop` stores: "none", "track", "queue". */
  datatype LoopMode = NoLoop | LoopTrack | LoopQueue

  /** The backend player of one guild, as far as the cog reads it. */
  datatype Player = Player(playing: bool, current: Option<Track>, currentInfo: Option<CatalogEntry>)

  /** `player.play(track)`: the backend starts outputting `t`. */
  function Play(p: Player, t: Track): (r: Player)
    ensures r.playing && r.current == Some(t) && r.currentInfo == p.currentInfo
  {
    p.(playing := true, current := Some(t))
  }

  /** The backend reports that the current track has finished. */
  function Finish(p: Player): Player {
    p.(playing := false)
  }

  function Min(a: int, b: int): int { if a <= b then a else b }

  // ------------------------------------------------- Python list editing

  /** The index `list.pop(i)` removes, or `None` for its `IndexError`:
      a negative index counts from the end. */
  function PopIndex(len: nat, i: int): (r: Option<nat>)
    ensures r.Some? <==> -(len as int) <= i < len
    ensures r.Some? ==> r.value < len && (r.value == i || r.value == len as int + i)
  {
    if 0 <= i < len then Some(i) else if -(len as int) <= i < 0 then Some(len as int + i) else None
  }

  /** The index at which `list.insert(i, x)` places `x`: a negative index
      counts from the end, and anything out of range is clamped. */
  function InsertIndex(len: nat, i: int): (k: nat)
    ensures k <= len
    ensures 0 <= i <= len ==> k == i
    ensures i >= len ==> k == len
    ensures i < -(len as int) ==> k == 0
  {
    if i < 0 then (if len as int + i < 0 then 0 else len as int + i) else if i > len then len else i
  }

  function RemoveAt<T>(q: seq<T>, k: nat): (r: seq<T>)
    requires k < |q|
    ensures |r| == |q| - 1
    ensures multiset(r) + multiset{q[k]} == multiset(q)
  {
    assert q == q[..k] + [q[k]] + q[k + 1..];
    q[..k] + q[k + 1..]
  }

  function InsertAt<T>(q: seq<T>, k: nat, x: T): (r: seq<T>)
    requires k <= |q|
    ensures |r| == |q| + 1 && r[k] == x
    ensures multiset(r) == multiset(q) + multiset{x}
  {
    assert q == q[..k] + q[k..];
    q[..k] + [x] + q[k..]
  }

  // -------------------------------------------------------- remove, move

  /** What a queue edit did: nothing because the queue was empty, nothing
      because `pop` raised `IndexError`, or it took out `entry`. */
  datatype EditOutcome = QueueEmpty | InvalidPosition | Took(entry: QueueEntry)

  /** `remove(position)`: `queue.pop(position - 1)` on a non-empty queue. */
  function Remove(q: seq<QueueEntry>, position: int): (r: (seq<QueueEntry>, EditOutcome))
    ensures q == [] ==> r == (q, QueueEmpty)
    ensures q != [] && 1 <= position <= |q| ==>
      r == (q[..position - 1] + q[position..], Took(q[position - 1]))
    ensures q != [] && position == 0 ==> r == (q[..|q| - 1], Took(q[|q| - 1]))
    ensures q != [] && 1 - |q| <= position < 0 ==>
      r == (q[..|q| + position - 1] + q[|q| + position..], Took(q[|q| + position - 1]))
    ensures q != [] && (position > |q| || position < 1 - |q|) ==> r == (q, InvalidPosition)
    ensures r.1.Took? ==> multiset(r.0) + multiset{r.1.entry} == multiset(q)
  {
    if q == [] then (q, QueueEmpty)
    else
      var i := PopIndex(|q|, position - 1);
      if i.None? then (q, InvalidPosition)
      else
        var k := i.value;
        assert 1 - |q| <= position <= |q|;
        assert position == 0 ==> k == |q| - 1 && RemoveAt(q, k) == q[..|q| - 1];
        (RemoveAt(q, k), Took(q[k]))
  }

  /** `move(from_pos, to_pos)`: pop the entry at `from_pos`, then insert it
      at `to_pos` in the shortened queue. */
  function Move(q: seq<QueueEntry>, fromPos: int, toPos: int): (r: (seq<QueueEntry>, EditOutcome))
    ensures |r.0| == |q| && multiset(r.0) == multiset(q)
    ensures q == [] ==> r == (q, QueueEmpty)
    ensures q != [] && (fromPos > |q| || fromPos < 1 - |q|) ==> r == (q, InvalidPosition)
    ensures r.1.Took? ==> r.1.entry in q
  {
    if q == [] then (q, QueueEmpty)
    else
      var i := PopIndex(|q|, fromPos - 1);
      if i.None? then (q, InvalidPosition)
      else
        var k := i.value;
        var rest := RemoveAt(q, k);
        (InsertAt(rest, InsertIndex(|rest|, toPos - 1), q[k]), Took(q[k]))
  }

  lemma RemoveExample(a: QueueEntry, b: QueueEntry, c: QueueEntry)
    ensures Remove([a, b, c], 2) == ([a, c], Took(b))
  {
    assert RemoveAt([a, b, c], 1) == [a, c];
  }

  lemma MoveExample(a: QueueEntry, b: QueueEntry, c: QueueEntry, d: QueueEntry)
    ensures Move([a, b, c, d], 3, 1) == ([c, a, b, d], Took(c))
  {
    var q := [a, b, c, d];
    assert q[..2] + q[3..] == [a, b, d];
    var rest := [a, b, d];
    assert rest[..0] + [c] + rest[0..] == [c, a, b, d];
  }

  /** A target beyond the end of the shortened queue puts the entry last. */
  lemma MoveToTail(q: seq<QueueEntry>, fromPos: int, toPos: int)
    requires 1 <= fromPos <= |q| && toPos >= |q|
    ensures Move(q, fromPos, toPos).0 == q[..fromPos - 1] + q[fromPos..] + [q[fromPos - 1]]
  {
  }

  /** Moving an entry from `f` to `t` and back from `t` to `f` restores the queue. */
  lemma MoveThenMoveBack(q: seq<QueueEntry>, f: int, t: int)
    requires 1 <= f <= |q| && 1 <= t <= |q|
    ensures Move(Move(q, f, t).0, t, f).0 == q
  {
    var q2 := Move(q, f, t).0;
    MoveInRange(q, f, t);
    InsertAfterRemove(q, f - 1, t - 1);
    MoveInRange(q2, t, f);
  }

  /** A move between two positions inside the queue pops at `f - 1` and
      inserts at `t - 1`. */
  lemma MoveInRange(q: seq<QueueEntry>, f: int, t: int)
    requires 1 <= f <= |q| && 1 <= t <= |q|
    ensures Move(q, f, t).0 == InsertAt(RemoveAt(q, f - 1), t - 1, q[f - 1])
  {
  }

  lemma InsertAfterRemove<T>(q: seq<T>, k: nat, j: nat)
    requires k < |q| && j < |q|
    ensures var q2 := InsertAt(RemoveAt(q, k), j, q[k]);
      && q2[j] == q[k]
      && RemoveAt(q2, j) == RemoveAt(q, k)
      && InsertAt(RemoveAt(q, k), k, q[k]) == q
  {
    var rest := q[..k] + q[k + 1..];
    var q2 := rest[..j] + [q[k]] + rest[j..];
    assert q2[..j] + q2[j + 1..] == rest;
    assert rest[..k] + [q[k]] + rest[k..] == q;
  }

  /** What `remove` and `move` reply, as written: they read `.title` of the
      entry they took out, which raises `AttributeError` on a tuple entry
      after the queue has already been edited. */
  datatype Reply = ReplyQueueEmpty | ReplyInvalidPosition | ReplyTitle(title: string) | ReplyRaised

  function EditReplyAsWritten(o: EditOutcome): (r: Reply)
    ensures o.Took? && o.entry.WithInfo? ==> r == ReplyRaised
    ensures o.Took? && o.entry.Bare? ==> r == ReplyTitle(o.entry.track.title)
  {
    match o
    case QueueEmpty => ReplyQueueEmpty
    case InvalidPosition => ReplyInvalidPosition
    case Took(e) => if e.Bare? then ReplyTitle(e.track.title) else ReplyRaised
  }

  /** The reply the commands evidently intend: the title of the track the
      entry holds, as the `queue` listing reads it for both kinds of entry. */
  function EditReplyIntended(o: EditOutcome): (r: Reply)
    ensures o.Took? ==> r == ReplyTitle(o.entry.track.title)
    ensures r != ReplyRaised
  {
    match o
    case QueueEmpty => ReplyQueueEmpty
    case InvalidPosition => ReplyInvalidPosition
    case Took(e) => ReplyTitle(e.track.title)
  }

  /** Removing a playlist entry edits the queue and then fails to reply;
      the intended reply names the track. */
  lemma RemoveTupleReplyRaises(t: Track, info: CatalogEntry)
    ensures Remove([WithInfo(t, info)], 1).0 == []
    ensures EditReplyAsWritten(Remove([WithInfo(t, info)], 1).1) == ReplyRaised
    ensures EditReplyIntended(Remove([WithInfo(t, info)], 1).1) == ReplyTitle(t.title)
  {
  }

  // ------------------------------------------------------ track-end step

  /** `on_wavelink_track_end` for a guild that has a queue entry: with the
      player idle and the queue non-empty, loop "track" replays the current
      track, loop "queue" plays the head and re-appends that same entry,
      and otherwise the head is played. `playFails` stands for the backend
      raising from `play`, which the handler catches after the queue has
      already been popped. */
  function TrackEndStep(q: seq<QueueEntry>, mode: LoopMode, p: Player, playFails: bool)
    : (r: (seq<QueueEntry>, Player))
    ensures p.playing || q == [] ==> r == (q, p)
    ensures !p.playing && q != [] && mode == LoopTrack && p.current.Some? ==>
      r.0 == q && (!playFails ==> r.1.playing && r.1.current == p.current) && (playFails ==> r.1 == p)
    ensures !p.playing && q != [] && mode == LoopQueue && !playFails ==>
      r.0 == q[1..] + [q[0]] && r.1.current == Some(q[0].track)
    ensures !p.playing && q != [] && mode == LoopQueue && playFails ==> r == (q[1..], p)
    ensures !p.playing && q != [] && (mode == NoLoop || (mode == LoopTrack && p.current.None?)) ==>
      r.0 == q[1..] && (!playFails ==> r.1.current == Some(q[0].track)) && (playFails ==> r.1 == p)
    ensures |r.0| <= |q|
  {
    if p.playing || q == [] then (q, p)
    else if mode == LoopTrack && p.current.Some? then
      (q, if playFails then p else Play(p, p.current.value))
    else if mode == LoopQueue then
      if playFails then (q[1..], p) else (q[1..] + [q[0]], Play(p, q[0].track))
    else
      (q[1..], if playFails then p else Play(p, q[0].track))
  }

  /** A track end never adds an entry to the queue: every entry left is one
      that was there before, at most as often. */
  lemma TrackEndKeepsEntries(q: seq<QueueEntry>, mode: LoopMode, p: Player, playFails: bool)
    ensures multiset(TrackEndStep(q, mode, p, playFails).0) <= multiset(q)
  {
    if !p.playing && q != [] {
      assert q == [q[0]] + q[1..];
    }
  }

  /** `n` tracks end one after the other with no command in between and the
      backend accepting every `play`. */
  function Events(q: seq<QueueEntry>, p: Player, mode: LoopMode, n: nat): (r: (seq<QueueEntry>, Player))
    ensures |r.0| <= |q|
    decreases n
  {
    if n == 0 then (q, p)
    else
      var s := Events(q, p, mode, n - 1);
      TrackEndStep(s.0, mode, Finish(s.1), false)
  }

  function RotateLeft(q: seq<QueueEntry>, k: nat): seq<QueueEntry>
    requires k <= |q|
  {
    q[k..] + q[..k]
  }

  /** Loop "track": the current track is replayed forever and the queue is
      left alone, as long as the queue is not empty. */
  lemma {:induction false} LoopTrackRepeats(q: seq<QueueEntry>, p: Player, t: Track, n: nat)
    requires q != [] && p.current == Some(t)
    ensures Events(q, p, LoopTrack, n).0 == q
    ensures Events(q, p, LoopTrack, n).1.current == Some(t)
  {
    if n > 0 {
      LoopTrackRepeats(q, p, t, n - 1);
    }
  }

  /** One more rotation step: moving the head of `RotateLeft(q, k)` to the
      back gives `RotateLeft(q, k + 1)`. */
  lemma RotateStep(q: seq<QueueEntry>, k: nat)
    requires k < |q|
    ensures RotateLeft(q, k)[0] == q[k]
    ensures RotateLeft(q, k)[1..] + [RotateLeft(q, k)[0]] == RotateLeft(q, k + 1)
  {
    var r := RotateLeft(q, k);
    assert r[1..] == q[k + 1..] + q[..k];
    assert q[..k] + [q[k]] == q[..k + 1];
  }

  /** Track ends compose: `a + b` ends are `b` ends after `a` ends. */
  lemma {:induction false} EventsCompose(q: seq<QueueEntry>, p: Player, mode: LoopMode, a: nat, b: nat)
    ensures var s := Events(q, p, mode, a);
      Events(q, p, mode, a + b) == Events(s.0, s.1, mode, b)
    decreases b
  {
    if b > 0 {
      EventsCompose(q, p, mode, a, b - 1);
    }
  }

  /** Within the first round, `k` track ends rotate the queue left by `k`. */
  lemma {:induction false} LoopQueueFirstRound(q: seq<QueueEntry>, p: Player, k: nat)
    requires k <= |q|
    ensures Events(q, p, LoopQueue, k).0 == RotateLeft(q, k)
  {
    if k == 0 {
      assert RotateLeft(q, 0) == q;
    } else {
      LoopQueueFirstRound(q, p, k - 1);
      RotateStep(q, k - 1);
    }
  }

  /** Under loop "queue" the queue keeps its length. */
  lemma {:induction false} LoopQueueKeepsLength(q: seq<QueueEntry>, p: Player, n: nat)
    ensures |Events(q, p, LoopQueue, n).0| == |q|
  {
    if n > 0 {
      LoopQueueKeepsLength(q, p, n - 1);
    }
  }

  /** One track end under loop "queue" plays the head of the queue. */
  lemma LoopQueueStepPlaysHead(q: seq<QueueEntry>, p: Player, n: nat)
    requires n > 0
    requires Events(q, p, LoopQueue, n - 1).0 != []
    ensures Events(q, p, LoopQueue, n).1.current == Some(Events(q, p, LoopQueue, n - 1).0[0].track)
  {
  }

  /** Loop "queue" has period `|q|`: `|q|` more track ends restore the queue. */
  lemma LoopQueuePeriodic(q: seq<QueueEntry>, p: Player, n: nat)
    requires q != []
    ensures Events(q, p, LoopQueue, n + |q|).0 == Events(q, p, LoopQueue, n).0
  {
    var s := Events(q, p, LoopQueue, n);
    EventsCompose(q, p, LoopQueue, n, |q|);
    LoopQueueKeepsLength(q, p, n);
    LoopQueueFirstRound(s.0, s.1, |s.0|);
    assert RotateLeft(s.0, |s.0|) == s.0;
  }

  /** `c` whole rounds followed by `k < |q|` track ends rotate the queue by `k`. */
  lemma {:induction false} LoopQueueRounds(q: seq<QueueEntry>, p: Player, c: nat, k: nat, n: nat)
    requires k < |q| && n == c * |q| + k
    ensures Events(q, p, LoopQueue, n).0 == RotateLeft(q, k)
    decreases c
  {
    if c == 0 {
      LoopQueueFirstRound(q, p, k);
    } else {
      var m := |q|;
      var before := (c - 1) * m + k;
      assert n == before + m by {
        assert c * m == (c - 1) * m + m;
      }
      LoopQueueRounds(q, p, c - 1, k, before);
      LoopQueuePeriodic(q, p, before);
    }
  }

  lemma LoopQueueRotation(q: seq<QueueEntry>, p: Player, n: nat)
    requires q != []
    ensures Events(q, p, LoopQueue, n).0 == RotateLeft(q, n % |q|)
  {
    LoopQueueRounds(q, p, n / |q|, n % |q|, n);
  }

  /** Loop "queue": after `n` track ends the queue is the original rotated
      left by `n mod |q|`, and the track playing is entry `(n-1) mod |q|`. */
  lemma LoopQueueRotates(q: seq<QueueEntry>, p: Player, n: nat)
    requires q != []
    ensures Events(q, p, LoopQueue, n).0 == RotateLeft(q, n % |q|)
    ensures n > 0 ==> Events(q, p, LoopQueue, n).1.current == Some(q[(n - 1) % |q|].track)
  {
    LoopQueueRotation(q, p, n);
    if n > 0 {
      LoopQueueRotation(q, p, n - 1);
      RotateStep(q, (n - 1) % |q|);
      LoopQueueStepPlaysHead(q, p, n);
    }
  }

  /** The rotation has period `|q|`: after `|q|` track ends the queue is back
      in its original order. */
  lemma LoopQueuePeriod(q: seq<QueueEntry>, p: Player)
    requires q != []
    ensures Events(q, p, LoopQueue, |q|).0 == q
  {
    LoopQueueFirstRound(q, p, |q|);
  }

  /** Loop "none": each track end plays the head, so after `n <= |q|` ends
      the first `n` entries are gone and entry `n-1` is playing. */
  lemma {:induction false} NoLoopDrains(q: seq<QueueEntry>, p: Player, n: nat)
    requires n <= |q|
    ensures Events(q, p, NoLoop, n).0 == q[n..]
    ensures n > 0 ==> Events(q, p, NoLoop, n).1.current == Some(q[n - 1].track)
  {
    if n > 0 {
      NoLoopDrains(q, p, n - 1);
      assert q[n - 1..][1..] == q[n..];
    }
  }

  /** Once the queue is empty a track end changes neither the queue nor the
      current track, in any loop mode: the handler is not entered. */
  lemma {:induction false} EmptyQueueStaysIdle(p: Player, mode: LoopMode, n: nat)
    ensures Events([], p, mode, n).0 == []
    ensures Events([], p, mode, n).1.current == p.current
  {
    if n > 0 {
      EmptyQueueStaysIdle(p, mode, n - 1);
    }
  }

  // --------------------------------------------------------- the listing

  /** The line of entry `i`: its 1-based position, then its title. */
  function ListingLine(i: nat, e: QueueEntry): (r: string)
    ensures '\n' !in e.track.title ==> '\n' !in r
    ensures EndsWith(r, e.track.title)
  {
    var d := NatToString(i + 1);
    assert '\n' !in d by {
      assert forall k :: 0 <= k < |d| ==> IsDigit(d[k]);
    }
    d + ". " + e.track.title
  }

  /** The lines of the `queue` reply: the first ten entries numbered from 1,
      then a remainder line when there are more. */
  function ListingLines(q: seq<QueueEntry>): (lines: seq<string>)
    ensures |lines| == if |q| <= 10 then |q| else 11
  {
    var shown := seq(Min(|q|, 10), i requires 0 <= i < Min(|q|, 10) => ListingLine(i, q[i]));
    if |q| > 10 then shown + ["...и еще " + NatToString(|q| - 10) + " треков"] else shown
  }

  /** The text of the `queue` reply, or `None` for "queue empty". */
  function QueueListing(q: seq<QueueEntry>): (r: Option<string>)
    ensures r.None? <==> q == []
  {
    if q == [] then None else Some(Join(ListingLines(q), "\n"))
  }

  /** Reading the listing back line by line recovers, for each of the first
      ten entries, its position and title, and the count of the rest. */
  lemma ListingLinesReadBack(q: seq<QueueEntry>)
    requires q != []
    requires forall i :: 0 <= i < |q| ==> '\n' !in q[i].track.title
    ensures var lines := Split(QueueListing(q).value, "\n");
      && |lines| == Min(|q|, 10) + (if |q| > 10 then 1 else 0)
      && (forall i :: 0 <= i < Min(|q|, 10) ==> lines[i] == NatToString(i + 1) + ". " + q[i].track.title)
      && (|q| > 10 ==> lines[10] == "...и еще " + NatToString(|q| - 10) + " треков")
  {
    ListingLinesSplit(q);
  }

  lemma ListingLinesSplit(q: seq<QueueEntry>)
    requires q != []
    requires forall i :: 0 <= i < |q| ==> '\n' !in q[i].track.title
    ensures Split(QueueListing(q).value, "\n") == ListingLines(q)
  {
    var lines := ListingLines(q);
    forall k | 0 <= k < |lines| ensures '\n' !in lines[k] {
      ListingLineNoNewline(q, k);
    }
    SplitJoin(lines, '\n');
  }

  lemma ListingLineNoNewline(q: seq<QueueEntry>, k: nat)
    requires forall i :: 0 <= i < |q| ==> '\n' !in q[i].track.title
    requires k < |ListingLines(q)|
    ensures '\n' !in ListingLines(q)[k]
  {
    var lines := ListingLines(q);
    if k < Min(|q|, 10) {
      var d := NatToString(k + 1);
      assert lines[k] == d + ". " + q[k].track.title;
      assert '\n' !in d;
    } else {
      var d := NatToString(|q| - 10);
      assert '\n' !in d;
      assert lines[k] == "...и еще " + d + " треков";
    }
  }

  // ----------------------------------------------------------------- seek

  /** The millisecond position `seek` computes from its argument: "m:s" is
      `(m*60+s)*1000`, a plain integer `n` is `n*1000`; `None` is the
      `ValueError` reply "invalid format". */
  function ParseSeek(position: string): (r: Option<int>)
    ensures r.Some? ==> r.value % 1000 == 0
  {
    if Contains(position, ":") then MinutesSeconds(Split(position, ":"))
    else
      match ParseInt(position)
      case Some(n) => Some(n * 1000)
      case None => None
  }

  /** The "m:s" branch: exactly two integer fields. */
  function MinutesSeconds(parts: seq<string>): (r: Option<int>)
    ensures r.Some? ==> |parts| == 2 && r.value % 1000 == 0
  {
    if |parts| != 2 then None
    else match (ParseInt(parts[0]), ParseInt(parts[1]))
      case (Some(m), Some(s)) => Some((m * 60 + s) * 1000)
      case _ => None
  }

  datatype SeekReply = NothingPlaying | InvalidFormat | SeekTo(ms: int)

  /** `seek`: refused unless a player is playing, then the position is parsed. */
  function Seek(player: Option<Player>, position: string): (r: SeekReply)
    ensures (player.None? || !player.value.playing) ==> r == NothingPlaying
    ensures r.SeekTo? ==> ParseSeek(position) == Some(r.ms)
    ensures r == InvalidFormat <==> player.Some? && player.value.playing && ParseSeek(position).None?
  {
    if player.None? || !player.value.playing then NothingPlaying
    else match ParseSeek(position)
      case None => InvalidFormat
      case Some(ms) => SeekTo(ms)
  }

  lemma ColonSplit(a: string, b: string)
    requires ':' !in a && ':' !in b
    ensures Contains(a + ":" + b, ":")
    ensures Split(a + ":" + b, ":") == [a, b]
  {
    assert Join([a, b], ":") == a + ":" + b;
    SplitJoin([a, b], ':');
    assert (a + ":" + b)[|a|..|a| + 1] == ":";
    assert OccursAt(a + ":" + b, ":", |a|);
  }

  /** "m:s" with two integer fields seeks to `(m*60+s)*1000`. */
  lemma SeekColonForm(a: string, b: string, m: int, s: int)
    requires ':' !in a && ':' !in b
    requires ParseInt(a) == Some(m) && ParseInt(b) == Some(s)
    ensures ParseSeek(a + ":" + b) == Some((m * 60 + s) * 1000)
  {
    ColonSplit(a, b);
    assert ParseSeek(a + ":" + b) == MinutesSeconds([a, b]);
  }

  lemma NoColonInNumber(n: nat)
    ensures ':' !in NatToString(n)
  {
  }

  /** "m:s" seeks to `(m*60+s)*1000`. */
  lemma SeekMinutesSeconds(m: nat, s: nat)
    ensures ParseSeek(NatToString(m) + ":" + NatToString(s)) == Some((m * 60 + s) * 1000)
  {
    NoColonInNumber(m);
    NoColonInNumber(s);
    ParseNatToString(m);
    ParseNatToString(s);
    SeekColonForm(NatToString(m), NatToString(s), m, s);
  }

  /** A plain integer, negative ones included, seeks to that many seconds. */
  lemma SeekSeconds(n: int)
    ensures ParseSeek(IntToString(n)) == Some(n * 1000)
  {
    var t := IntToString(n);
    assert ':' !in t by {
      NoColonInNumber(if n < 0 then -n else n);
    }
    FindAbsent(t, ':');
    ParseIntToString(n);
  }

  /** "1:30" and "90" seek to the same place. */
  lemma SeekEquivalentForms()
    ensures ParseSeek("1:30") == Some(90000)
    ensures ParseSeek("90") == Some(90000)
  {
    assert NatToString(1) == "1";
    assert NatToString(30) == "30" by { assert NatToString(3) == "3"; }
    assert NatToString(90) == "90" by { assert NatToString(9) == "9"; }
    assert NatToString(1) + ":" + NatToString(30) == "1:30";
    SeekMinutesSeconds(1, 30);
    assert IntToString(90) == "90";
    SeekSeconds(90);
  }

  /** More than one colon is always "invalid format". */
  lemma SeekTwoColons(a: string, b: string, c: string)
    ensures ParseSeek(a + ":" + b + ":" + c) == None
  {
    var s := a + ":" + b + ":" + c;
    assert s[|a|..|a| + 1] == ":";
    assert OccursAt(s, ":", |a|);
    SplitCount(s, ':');
    assert multiset(s)[':'] >= 2 by {
      assert multiset(s) == multiset(a) + multiset{':'} + multiset(b) + multiset{':'} + multiset(c);
    }
  }

  // ---------------------------------------------------------- format_time

  /** `f"{secs:02d}"`: at least two digits, zero-padded. */
  function TwoDigits(n: nat): (r: string)
    ensures forall i :: 0 <= i < |r| ==> IsDigit(r[i])
    ensures n < 100 ==> |r| == 2
  {
    if n < 10 then "0" + NatToString(n)
    else
      assert n < 100 ==> NatToString(n) == NatToString(n / 10) + [DigitChar(n % 10)] && n / 10 < 10;
      NatToString(n)
  }

  /** `format_time(seconds)` for a whole number of seconds: minutes, a colon,
      and the remaining seconds as two digits; minutes are never folded
      into hours. */
  function FormatTime(seconds: nat): (r: string)
    ensures |r| >= 4 && r[|r| - 3] == ':'
    ensures IsDigit(r[|r| - 2]) && IsDigit(r[|r| - 1])
  {
    NatToString(seconds / 60) + ":" + TwoDigits(seconds % 60)
  }

  lemma TwoDigitsPadded(n: nat)
    requires n < 10
    ensures TwoDigits(n) == ['0', DigitChar(n)]
    ensures ParseInt(TwoDigits(n)) == Some(n)
  {
    var t := ['0', DigitChar(n)];
    assert TwoDigits(n) == t;
    assert DigitsValue(t) == n by {
      assert t[..1] == "0";
      assert DigitsValue("0") == 0;
    }
    assert IsDigitBody(t);
    ParseDigitBody(t);
  }

  lemma TwoDigitsParse(n: nat)
    requires n < 60
    ensures |TwoDigits(n)| == 2 && ':' !in TwoDigits(n)
    ensures ParseInt(TwoDigits(n)) == Some(n)
  {
    if n < 10 {
      TwoDigitsPadded(n);
    } else {
      assert |NatToString(n / 10)| == 1;
      ParseNatToString(n);
    }
  }

  /** The rendered time parses back, through `seek`, to the same number of
      seconds, with the seconds field always two digits long. */
  lemma FormatTimeReadsBack(seconds: nat)
    ensures ParseSeek(FormatTime(seconds)) == Some(seconds * 1000)
    ensures Split(FormatTime(seconds), ":") == [NatToString(seconds / 60), TwoDigits(seconds % 60)]
    ensures |TwoDigits(seconds % 60)| == 2
  {
    FormatTimeFields(seconds);
    FormatTimeSeeks(seconds);
  }

  lemma FormatTimeFields(seconds: nat)
    ensures Split(FormatTime(seconds), ":") == [NatToString(seconds / 60), TwoDigits(seconds % 60)]
    ensures |TwoDigits(seconds % 60)| == 2
  {
    NoColonInNumber(seconds / 60);
    TwoDigitsParse(seconds % 60);
    ColonSplit(NatToString(seconds / 60), TwoDigits(seconds % 60));
  }

  lemma FormatTimeSeeks(seconds: nat)
    ensures ParseSeek(FormatTime(seconds)) == Some(seconds * 1000)
  {
    var m, s := seconds / 60, seconds % 60;
    NoColonInNumber(m);
    TwoDigitsParse(s);
    ParseNatToString(m);
    assert FormatTime(seconds) == NatToString(m) + ":" + TwoDigits(s);
    assert (m * 60 + s) * 1000 == seconds * 1000;
    SeekColonForm(NatToString(m), TwoDigits(s), m, s);
  }

  lemma FormatTimeExample()
    ensures FormatTime(90) == "1:30"
  {
    assert NatToString(1) == "1";
    assert NatToString(30) == "30" by { assert NatToString(3) == "3"; }
  }
}
