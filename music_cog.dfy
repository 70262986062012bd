/** The music cog's per-guild state (cogs/music.py): the queues, the loop
    modes and the connected players, with every command as one atomic step.
    Each command is a pure step over `CogState`, and the `MusicCog` class
    performs it in place, proved equal to the step. */
module Music {
  import opened PyText
  import opened MusicQueue
  import opened MusicCatalog

  datatype CogState = CogState(
    queues: map<Guild, seq<QueueEntry>>,
    loopMode: map<Guild, LoopMode>,
    players: map<Guild, Player>)

  /** The guild's queue, as `get_queue` would return it. */
  function QueueOf(s: CogState, g: Guild): seq<QueueEntry> {
    if g in s.queues then s.queues[g] else []
  }

  /** `get_queue`: creates an empty queue for a guild that has none. */
  function GetQueueStep(s: CogState, g: Guild): (r: CogState)
    ensures g in r.queues && r.queues[g] == QueueOf(s, g)
    ensures r.queues.Keys == s.queues.Keys + {g}
    ensures forall h :: h in s.queues ==> r.queues[h] == s.queues[h]
    ensures r.loopMode == s.loopMode && r.players == s.players
  {
    if g in s.queues then s else s.(queues := s.queues[g := []])
  }

  /** `self.loop_mode.get(guild_id, "none")`. */
  function ModeOf(s: CogState, g: Guild): LoopMode {
    if g in s.loopMode then s.loopMode[g] else NoLoop
  }

  // ---------------------------------------------------------------- play

  /** How joining the caller's voice channel turns out when the bot is not
      yet connected: the caller is in no channel (`AttributeError`), the
      connection raises, or it succeeds. */
  datatype VoiceJoin = NotInVoice | ConnectRaises | Joins

  datatype AlbumResponse = AlbumResponse(pages: seq<seq<AlbumItem>>, info: AlbumInfo)

  /** The outside services `play` consults, as answers fixed in advance. */
  datatype Services = Services(
    voice: VoiceJoin,
    search: string -> Resolution,
    albumApi: string -> Option<AlbumResponse>,
    playlistApi: (string, int) -> Option<seq<Option<SpotifyTrack>>>)

  datatype PlayReply =
    | MustJoinVoice
    | ConnectFailed
    | AlbumFailed
    | PlaylistFailed
    | BulkAdded(progress: seq<nat>, notice: Notice)
    | NothingFound
    | Queued(track: Track)
    | NowPlaying(track: Track)
    | PlayFailed

  /** The resolution of every entry, in order. */
  function Resolutions(entries: seq<CatalogEntry>, search: string -> Resolution): (res: seq<Resolution>)
    ensures |res| == |entries|
    ensures forall i :: 0 <= i < |entries| ==> res[i] == search(entries[i].query)
  {
    seq(|entries|, i requires 0 <= i < |entries| => search(entries[i].query))
  }

  /** The album entries for a query, or `None` when the id cannot be
      extracted, the service raises, or an item has no artist. */
  function AlbumCatalog(query: string, api: string -> Option<AlbumResponse>): Option<seq<CatalogEntry>> {
    match AlbumId(query)
    case None => None
    case Some(id) =>
      match api(id)
      case None => None
      case Some(resp) => AlbumEntries(resp.pages, resp.info)
  }

  function PlaylistCatalog(query: string, limit: int,
                           api: (string, int) -> Option<seq<Option<SpotifyTrack>>>): Option<seq<CatalogEntry>> {
    match PlaylistId(query)
    case None => None
    case Some(id) =>
      match api(id, ClampLimit(limit))
      case None => None
      case Some(items) => PlaylistEntries(items)
  }

  /** The album branch of `play` up to its entries: the id, the album
      request, and the pagination loop. */
  method FetchAlbumCatalog(query: string, api: string -> Option<AlbumResponse>)
    returns (entries: Option<seq<CatalogEntry>>)
    ensures entries == AlbumCatalog(query, api)
  {
    entries := None;
    var id := AlbumId(query);
    if id.Some? {
      var resp := api(id.value);
      if resp.Some? {
        entries := FetchAlbum(resp.value.pages, resp.value.info);
      }
    }
  }

  /** The playlist branch of `play` up to its entries: the id, the clamped
      request, and the item loop. */
  method FetchPlaylistCatalog(query: string, limit: int,
                              api: (string, int) -> Option<seq<Option<SpotifyTrack>>>)
    returns (entries: Option<seq<CatalogEntry>>)
    ensures entries == PlaylistCatalog(query, limit, api)
  {
    entries := None;
    var id := PlaylistId(query);
    if id.Some? {
      var items := api(id.value, ClampLimit(limit));
      if items.Some? {
        entries := FetchPlaylist(items.value);
      }
    }
  }

  /** The bulk loop run on guild `g` (which has a player and a queue). */
  function BulkOnGuild(s: CogState, g: Guild, entries: seq<CatalogEntry>, search: string -> Resolution): (r: (CogState, PlayReply))
    requires g in s.players && g in s.queues
    ensures r.0.queues.Keys == s.queues.Keys && r.0.players.Keys == s.players.Keys && r.0.loopMode == s.loopMode
    ensures forall h :: h != g && h in s.queues ==> r.0.queues[h] == s.queues[h]
    ensures forall h :: h != g && h in s.players ==> r.0.players[h] == s.players[h]
    ensures r.1.BulkAdded? && r.1.notice.Done? && r.1.notice.added <= |entries|
  {
    var b := BulkRun(BulkState(s.players[g], s.queues[g], 0, []), entries, Resolutions(entries, search));
    (s.(queues := s.queues[g := b.queue], players := s.players[g := b.player]),
     BulkAdded(b.progress, FinalNotice(b.added)))
  }

  /** `play` after the connection check: the album branch, the playlist
      branch, or a single track. */
  function PlayConnected(s: CogState, g: Guild, query: string, limit: int, sv: Services): (r: (CogState, PlayReply))
    requires g in s.players
    ensures g in r.0.queues && g in r.0.players && r.0.loopMode == s.loopMode
    ensures forall h :: h != g && h in s.queues ==> h in r.0.queues && r.0.queues[h] == s.queues[h]
    ensures forall h :: h != g && h in s.players ==> h in r.0.players && r.0.players[h] == s.players[h]
    ensures r.1 in {AlbumFailed, PlaylistFailed, NothingFound, PlayFailed} ==> r.0 == GetQueueStep(s, g)
    ensures r.1 != MustJoinVoice && r.1 != ConnectFailed
  {
    var s1 := GetQueueStep(s, g);
    if Contains(query, "open.spotify.com/album") then
      var entries := AlbumCatalog(query, sv.albumApi);
      if entries.None? || entries.value == [] then (s1, AlbumFailed)
      else BulkOnGuild(s1, g, entries.value, sv.search)
    else if Contains(query, "open.spotify.com/playlist") then
      var entries := PlaylistCatalog(query, limit, sv.playlistApi);
      if entries.None? || entries.value == [] then (s1, PlaylistFailed)
      else BulkOnGuild(s1, g, entries.value, sv.search)
    else
      match sv.search(query)
      case NoResults => (s1, NothingFound)
      case Raised => (s1, PlayFailed)
      case Found(t) =>
        var p := s1.players[g];
        if p.playing then (s1.(queues := s1.queues[g := s1.queues[g] + [Bare(t)]]), Queued(t))
        else (s1.(players := s1.players[g := Play(p, t)]), NowPlaying(t))
  }

  /** The whole `play` command. */
  function PlayStep(s: CogState, g: Guild, query: string, limit: int, sv: Services): (r: (CogState, PlayReply))
    ensures r.1 in {MustJoinVoice, ConnectFailed} <==> g !in s.players && sv.voice != Joins
    ensures r.1 in {MustJoinVoice, ConnectFailed} ==> r.0 == s
    ensures r.1 !in {MustJoinVoice, ConnectFailed} ==> g in r.0.queues && g in r.0.players
    ensures r.0.loopMode == s.loopMode
  {
    if g in s.players then PlayConnected(s, g, query, limit, sv)
    else match sv.voice
      case NotInVoice => (s, MustJoinVoice)
      case ConnectRaises => (s, ConnectFailed)
      case Joins => PlayConnected(s.(players := s.players[g := Player(false, None, None)]), g, query, limit, sv)
  }

  /** A caller outside any voice channel, or a failed connection, changes
      nothing: not even an empty queue is created. */
  lemma PlayWithoutVoiceChangesNothing(s: CogState, g: Guild, query: string, limit: int, sv: Services)
    requires g !in s.players && sv.voice != Joins
    ensures PlayStep(s, g, query, limit, sv).0 == s
    ensures PlayStep(s, g, query, limit, sv).1 in {MustJoinVoice, ConnectFailed}
  {
  }

  /** A catalog that fails or comes back empty aborts before the player or
      any queue entry changes; only `get_queue`'s empty queue may appear. */
  lemma FailedCatalogOnlyCreatesQueue(s: CogState, g: Guild, query: string, limit: int, sv: Services)
    requires g in s.players
    requires Contains(query, "open.spotify.com/album") ==>
      AlbumCatalog(query, sv.albumApi).None? || AlbumCatalog(query, sv.albumApi) == Some([])
    requires !Contains(query, "open.spotify.com/album") && Contains(query, "open.spotify.com/playlist") ==>
      PlaylistCatalog(query, limit, sv.playlistApi).None? || PlaylistCatalog(query, limit, sv.playlistApi) == Some([])
    requires Contains(query, "open.spotify.com/album") || Contains(query, "open.spotify.com/playlist")
    ensures PlayStep(s, g, query, limit, sv).0 == GetQueueStep(s, g)
    ensures PlayStep(s, g, query, limit, sv).1 in {AlbumFailed, PlaylistFailed}
  {
  }

  /** Bulk enqueue on a busy player: every successful entry is appended as a
      `(track, info)` pair in catalog order, the player is untouched, and the
      reply counts the successes. */
  lemma BulkOnBusyPlayerAppends(s: CogState, g: Guild, entries: seq<CatalogEntry>, search: string -> Resolution)
    requires g in s.players && g in s.queues && s.players[g].playing
    ensures var res := Resolutions(entries, search);
      && BulkOnGuild(s, g, entries, search).0.queues == s.queues[g := s.queues[g] + FoundEntries(entries, res)]
      && BulkOnGuild(s, g, entries, search).0.players == s.players
      && BulkOnGuild(s, g, entries, search).1.notice == Done(CountFound(res))
  {
    var res := Resolutions(entries, search);
    var init := BulkState(s.players[g], s.queues[g], 0, []);
    BulkWhilePlaying(init, entries, res);
    BulkCounts(init, entries, res);
    assert s.players[g := s.players[g]] == s.players;
  }

  /** A single track on a busy player is queued bare; on an idle player it
      starts playing at once, the queue is left alone, and the current
      track info is not updated. */
  lemma SingleTrack(s: CogState, g: Guild, query: string, limit: int, sv: Services, t: Track)
    requires g in s.players
    requires !Contains(query, "open.spotify.com/album") && !Contains(query, "open.spotify.com/playlist")
    requires sv.search(query) == Found(t)
    ensures var r := PlayStep(s, g, query, limit, sv);
      && g in r.0.queues && g in r.0.players
      && (s.players[g].playing ==> r.0.queues[g] == QueueOf(s, g) + [Bare(t)] && r.1 == Queued(t))
      && (!s.players[g].playing ==>
            r.0.queues[g] == QueueOf(s, g) && r.0.players[g].current == Some(t)
            && r.0.players[g].currentInfo == s.players[g].currentInfo && r.1 == NowPlaying(t))
  {
  }

  // ------------------------------------------------------- other commands

  /** `queue`: the listing of the guild's queue (creating it if needed). */
  function ListStep(s: CogState, g: Guild): (r: (CogState, Option<string>))
    ensures r.0 == GetQueueStep(s, g)
    ensures r.1.None? <==> QueueOf(s, g) == []
  {
    (GetQueueStep(s, g), QueueListing(QueueOf(s, g)))
  }

  datatype StopReply = BotNotInVoice | Stopped

  /** `stop`: with a player, the queue becomes empty and the player is
      stopped and disconnected; without one, nothing changes. */
  function StopStep(s: CogState, g: Guild): (r: (CogState, StopReply))
    ensures r.1 == Stopped <==> g in s.players
    ensures r.1 == BotNotInVoice ==> r.0 == s
    ensures r.1 == Stopped ==> g in r.0.queues && r.0.queues[g] == [] && g !in r.0.players
    ensures forall h :: h != g && h in s.queues ==> h in r.0.queues && r.0.queues[h] == s.queues[h]
    ensures forall h :: h != g && h in s.players ==> h in r.0.players && r.0.players[h] == s.players[h]
    ensures r.0.loopMode == s.loopMode
  {
    if g !in s.players then (s, BotNotInVoice)
    else (CogState(s.queues[g := []], s.loopMode, s.players - {g}), Stopped)
  }

  /** `clear`: the guild's queue becomes empty, whether it existed or not. */
  function ClearStep(s: CogState, g: Guild): (r: CogState)
    ensures g in r.queues && r.queues[g] == []
    ensures forall h :: h != g && h in s.queues ==> h in r.queues && r.queues[h] == s.queues[h]
    ensures r.queues.Keys == s.queues.Keys + {g}
    ensures r.players == s.players && r.loopMode == s.loopMode
  {
    s.(queues := s.queues[g := []])
  }

  /** `stop` and `clear` empty exactly the guild's queue and never touch the
      loop mode; `stop` also drops the player. */
  lemma StopAndClearKeepLoopMode(s: CogState, g: Guild)
    ensures ClearStep(s, g).loopMode == s.loopMode && ClearStep(s, g).players == s.players
    ensures ClearStep(s, g).queues[g] == []
    ensures forall h :: h != g && h in s.queues ==> h in ClearStep(s, g).queues && ClearStep(s, g).queues[h] == s.queues[h]
    ensures StopStep(s, g).0.loopMode == s.loopMode
    ensures g in s.players ==>
      (StopStep(s, g).0.queues == ClearStep(s, g).queues && g !in StopStep(s, g).0.players && StopStep(s, g).1 == Stopped)
    ensures g !in s.players ==> StopStep(s, g) == (s, BotNotInVoice)
  {
  }

  /** `loop`: records the mode for the guild. */
  function LoopStep(s: CogState, g: Guild, mode: LoopMode): (r: CogState)
    ensures ModeOf(r, g) == mode
    ensures forall h :: h != g ==> ModeOf(r, h) == ModeOf(s, h)
    ensures r.queues == s.queues && r.players == s.players
  {
    s.(loopMode := s.loopMode[g := mode])
  }

  /** `remove`: pops `position - 1` and replies with the removed title. */
  function RemoveStep(s: CogState, g: Guild, position: int): (r: (CogState, Reply))
    ensures r.0.queues.Keys == s.queues.Keys + {g}
    ensures forall h :: h != g && h in s.queues ==> r.0.queues[h] == s.queues[h]
    ensures r.0.players == s.players && r.0.loopMode == s.loopMode
    ensures r.1.ReplyTitle? ==> |r.0.queues[g]| == |QueueOf(s, g)| - 1
    ensures !r.1.ReplyTitle? ==> r.0 == GetQueueStep(s, g)
    ensures multiset(r.0.queues[g]) <= multiset(QueueOf(s, g))
  {
    var s1 := GetQueueStep(s, g);
    var e := Remove(s1.queues[g], position);
    (s1.(queues := s1.queues[g := e.0]), EditReplyIntended(e.1))
  }

  /** `move`: pops `from_pos - 1` and inserts it at `to_pos - 1`. */
  function MoveStep(s: CogState, g: Guild, fromPos: int, toPos: int): (r: (CogState, Reply))
    ensures r.0.queues.Keys == s.queues.Keys + {g}
    ensures forall h :: h != g && h in s.queues ==> r.0.queues[h] == s.queues[h]
    ensures r.0.players == s.players && r.0.loopMode == s.loopMode
    ensures multiset(r.0.queues[g]) == multiset(QueueOf(s, g))
    ensures !r.1.ReplyTitle? ==> r.0 == GetQueueStep(s, g)
  {
    var s1 := GetQueueStep(s, g);
    var e := Move(s1.queues[g], fromPos, toPos);
    (s1.(queues := s1.queues[g := e.0]), EditReplyIntended(e.1))
  }

  /** Editing one guild's queue leaves every other guild, the players and
      the loop modes as they were; an invalid position leaves even the
      guild's queue unchanged. */
  lemma EditsAreLocal(s: CogState, g: Guild, a: int, b: int)
    ensures forall h :: h != g && h in s.queues ==>
      RemoveStep(s, g, a).0.queues[h] == s.queues[h] && MoveStep(s, g, a, b).0.queues[h] == s.queues[h]
    ensures RemoveStep(s, g, a).0.players == s.players && RemoveStep(s, g, a).0.loopMode == s.loopMode
    ensures MoveStep(s, g, a, b).0.players == s.players && MoveStep(s, g, a, b).0.loopMode == s.loopMode
    ensures RemoveStep(s, g, a).1 == ReplyInvalidPosition ==> RemoveStep(s, g, a).0 == GetQueueStep(s, g)
    ensures MoveStep(s, g, a, b).1 == ReplyInvalidPosition ==> MoveStep(s, g, a, b).0 == GetQueueStep(s, g)
  {
    var s1 := GetQueueStep(s, g);
    assert s1.queues[g := s1.queues[g]] == s1.queues;
  }

  /** `on_wavelink_track_end` for guild `g`, whose player reports
      `stillPlaying` when the event is handled. */
  function TrackEndOnGuild(s: CogState, g: Guild, stillPlaying: bool, playFails: bool): (r: CogState)
    requires g in s.players
    ensures r.queues.Keys == s.queues.Keys && r.players.Keys == s.players.Keys && r.loopMode == s.loopMode
    ensures forall h :: h != g && h in s.queues ==> r.queues[h] == s.queues[h]
    ensures forall h :: h != g && h in s.players ==> r.players[h] == s.players[h]
    ensures g in s.queues ==> |r.queues[g]| <= |s.queues[g]|
  {
    if g !in s.queues then s.(players := s.players[g := s.players[g].(playing := stillPlaying)])
    else
      var p := s.players[g].(playing := stillPlaying);
      var step := TrackEndStep(s.queues[g], ModeOf(s, g), p, playFails);
      s.(queues := s.queues[g := step.0], players := s.players[g := step.1])
  }

  /** For a guild without a queue the handler does nothing and creates no
      queue; with a busy player or an empty queue nothing changes in any
      loop mode. */
  lemma TrackEndGuards(s: CogState, g: Guild, playFails: bool)
    requires g in s.players
    ensures g !in s.queues ==> TrackEndOnGuild(s, g, s.players[g].playing, playFails) == s
    ensures s.players[g].playing ==> TrackEndOnGuild(s, g, true, playFails) == s
    ensures g in s.queues && s.queues[g] == [] ==> TrackEndOnGuild(s, g, s.players[g].playing, playFails) == s
  {
    assert s.players[g := s.players[g]] == s.players;
    if g in s.queues {
      assert s.queues[g := s.queues[g]] == s.queues;
    }
  }

  // ----------------------------------------------------------- shuffle

  /** `random.shuffle`: the Fisher–Yates swaps from the back, where
      `rand(i)` stands for the random draw made at index `i`. */
  method ShuffleSeq(q: seq<QueueEntry>, rand: nat -> nat) returns (r: seq<QueueEntry>)
    ensures |r| == |q| && multiset(r) == multiset(q)
  {
    r := q;
    var i := |r|;
    while i > 1
      invariant 0 <= i <= |r| && |r| == |q|
      invariant multiset(r) == multiset(q)
    {
      i := i - 1;
      var j := rand(i) % (i + 1);
      var x, y := r[i], r[j];
      r := r[i := y][j := x];
    }
  }

  // ------------------------------------------------------------ the cog

  datatype ShuffleReply = ShuffleQueueEmpty | Shuffled

  class MusicCog {
    var queues: map<Guild, seq<QueueEntry>>
    var loopMode: map<Guild, LoopMode>
    var players: map<Guild, Player>

    function State(): CogState
      reads this
    {
      CogState(queues, loopMode, players)
    }

    constructor ()
      ensures State() == CogState(map[], map[], map[])
    {
      queues := map[];
      loopMode := map[];
      players := map[];
    }

    method GetQueue(g: Guild) returns (q: seq<QueueEntry>)
      modifies this
      ensures State() == GetQueueStep(old(State()), g)
      ensures q == QueueOf(old(State()), g)
    {
      if g !in queues {
        queues := queues[g := []];
      }
      q := queues[g];
    }

    /** The album/playlist loop of `play` over already built entries. */
    method BulkEnqueue(g: Guild, entries: seq<CatalogEntry>, search: string -> Resolution) returns (reply: PlayReply)
      requires g in players && g in queues
      modifies this
      ensures (State(), reply) == BulkOnGuild(old(State()), g, entries, search)
    {
      ghost var res := Resolutions(entries, search);
      ghost var init := BulkState(players[g], queues[g], 0, []);
      var added: nat := 0;
      var progress: seq<nat> := [];
      var i := 0;
      while i < |entries|
        invariant 0 <= i <= |entries|
        invariant g in players && g in queues && loopMode == old(loopMode)
        invariant BulkRun(init, entries[..i], res[..i]) == BulkState(players[g], queues[g], added, progress)
        invariant players == old(players)[g := players[g]] && queues == old(queues)[g := queues[g]]
      {
        BulkRunNext(init, entries, res, i);
        assert res[i] == search(entries[i].query);
        added, progress := EnqueueOne(g, added, progress, entries[i], search(entries[i].query));
        i := i + 1;
      }
      assert entries[..i] == entries && res[..i] == res;
      reply := BulkAdded(progress, FinalNotice(added));
    }

    /** One iteration of the bulk loop, in place on guild `g`. */
    method EnqueueOne(g: Guild, added: nat, progress: seq<nat>, info: CatalogEntry, res: Resolution)
      returns (added': nat, progress': seq<nat>)
      requires g in players && g in queues
      modifies this
      ensures g in players && g in queues && loopMode == old(loopMode)
      ensures BulkState(players[g], queues[g], added', progress')
           == BulkStep(BulkState(old(players[g]), old(queues[g]), added, progress), info, res)
      ensures players == old(players)[g := players[g]] && queues == old(queues)[g := queues[g]]
    {
      added', progress' := added, progress;
      match res {
        case Found(t) =>
          added' := added + 1;
          if !players[g].playing {
            players := players[g := Play(players[g], t).(currentInfo := Some(info))];
          } else {
            queues := queues[g := queues[g] + [WithInfo(t, info)]];
          }
          if added' % 5 == 0 {
            progress' := progress + [added'];
          }
        case _ =>
      }
    }

    method PlayOnConnected(g: Guild, query: string, limit: int, sv: Services) returns (reply: PlayReply)
      requires g in players
      modifies this
      ensures (State(), reply) == PlayConnected(old(State()), g, query, limit, sv)
    {
      var _ := GetQueue(g);
      if Contains(query, "open.spotify.com/album") {
        var entries := FetchAlbumCatalog(query, sv.albumApi);
        if entries.None? || entries.value == [] {
          return AlbumFailed;
        }
        reply := BulkEnqueue(g, entries.value, sv.search);
      } else if Contains(query, "open.spotify.com/playlist") {
        var entries := FetchPlaylistCatalog(query, limit, sv.playlistApi);
        if entries.None? || entries.value == [] {
          return PlaylistFailed;
        }
        reply := BulkEnqueue(g, entries.value, sv.search);
      } else {
        match sv.search(query)
        case NoResults => reply := NothingFound;
        case Raised => reply := PlayFailed;
        case Found(t) =>
          if players[g].playing {
            queues := queues[g := queues[g] + [Bare(t)]];
            reply := Queued(t);
          } else {
            players := players[g := Play(players[g], t)];
            reply := NowPlaying(t);
          }
      }
    }

    method PlayCommand(g: Guild, query: string, limit: int, sv: Services) returns (reply: PlayReply)
      modifies this
      ensures (State(), reply) == PlayStep(old(State()), g, query, limit, sv)
    {
      if g !in players {
        match sv.voice
        case NotInVoice => return MustJoinVoice;
        case ConnectRaises => return ConnectFailed;
        case Joins => players := players[g := Player(false, None, None)];
      }
      reply := PlayOnConnected(g, query, limit, sv);
    }

    method ListQueue(g: Guild) returns (listing: Option<string>)
      modifies this
      ensures (State(), listing) == ListStep(old(State()), g)
    {
      var q := GetQueue(g);
      listing := QueueListing(q);
    }

    method Stop(g: Guild) returns (reply: StopReply)
      modifies this
      ensures (State(), reply) == StopStep(old(State()), g)
    {
      if g !in players {
        return BotNotInVoice;
      }
      queues := queues[g := []];
      players := players - {g};
      reply := Stopped;
    }

    method Seek(g: Guild, position: string) returns (reply: SeekReply)
      ensures reply == NothingPlaying <==> g !in players || !players[g].playing
      ensures reply == InvalidFormat <==> g in players && players[g].playing && ParseSeek(position).None?
      ensures g in players && players[g].playing && ParseSeek(position).Some? ==>
        reply == SeekTo(ParseSeek(position).value)
    {
      reply := MusicQueue.Seek(if g in players then Some(players[g]) else None, position);
    }

    method SetLoop(g: Guild, mode: LoopMode)
      modifies this
      ensures State() == LoopStep(old(State()), g, mode)
    {
      loopMode := loopMode[g := mode];
    }

    method Shuffle(g: Guild, rand: nat -> nat) returns (reply: ShuffleReply)
      modifies this
      ensures g in queues && loopMode == old(loopMode) && players == old(players)
      ensures queues == GetQueueStep(old(State()), g).queues[g := queues[g]]
      ensures multiset(queues[g]) == multiset(QueueOf(old(State()), g))
      ensures reply == if QueueOf(old(State()), g) == [] then ShuffleQueueEmpty else Shuffled
    {
      var q := GetQueue(g);
      if q == [] {
        return ShuffleQueueEmpty;
      }
      var r := ShuffleSeq(q, rand);
      queues := queues[g := r];
      reply := Shuffled;
    }

    method RemoveCommand(g: Guild, position: int) returns (reply: Reply)
      modifies this
      ensures (State(), reply) == RemoveStep(old(State()), g, position)
    {
      var q := GetQueue(g);
      var e := Remove(q, position);
      queues := queues[g := e.0];
      reply := EditReplyIntended(e.1);
    }

    method Clear(g: Guild)
      modifies this
      ensures State() == ClearStep(old(State()), g)
    {
      queues := queues[g := []];
    }

    method MoveCommand(g: Guild, fromPos: int, toPos: int) returns (reply: Reply)
      modifies this
      ensures (State(), reply) == MoveStep(old(State()), g, fromPos, toPos)
    {
      var q := GetQueue(g);
      var e := Move(q, fromPos, toPos);
      queues := queues[g := e.0];
      reply := EditReplyIntended(e.1);
    }

    method OnTrackEnd(g: Guild, stillPlaying: bool, playFails: bool)
      requires g in players
      modifies this
      ensures State() == TrackEndOnGuild(old(State()), g, stillPlaying, playFails)
    {
      players := players[g := players[g].(playing := stillPlaying)];
      if g !in queues {
        return;
      }
      var step := TrackEndStep(queues[g], ModeOf(State(), g), players[g], playFails);
      queues := queues[g := step.0];
      players := players[g := step.1];
    }
  }
}
