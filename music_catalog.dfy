/** The catalog side of `play` (cogs/music.py): Spotify playlist and album
    id extraction, the entries built from Spotify responses, the album
    pagination loop, and the bulk-enqueue loop over resolved entries. The
    Spotify and search services are oracles: their answers are parameters. */
module MusicCatalog {
  import opened PyText
  import opened MusicQueue

  // ------------------------------------------------------------ ids

  /** `url.split(marker)[1].split('?')[0]`; `None` is the `IndexError` when
      the marker does not occur. */
  function SpotifyId(url: string, marker: string): (r: Option<string>)
    requires marker != []
    ensures r.Some? ==> !Contains(r.value, "?")
  {
    var parts := Split(url, marker);
    if |parts| < 2 then None
    else
      SplitHead(parts[1], "?");
      Some(Split(parts[1], "?")[0])
  }

  function PlaylistId(url: string): (r: Option<string>)
    ensures r.Some? <==> Contains(url, "playlist/")
    ensures r.Some? ==> !Contains(r.value, "?")
  {
    SpotifyIdNeedsMarker(url, "playlist/");
    SpotifyId(url, "playlist/")
  }

  function AlbumId(url: string): (r: Option<string>)
    ensures r.Some? <==> Contains(url, "album/")
    ensures r.Some? ==> !Contains(r.value, "?")
  {
    SpotifyIdNeedsMarker(url, "album/");
    SpotifyId(url, "album/")
  }

  /** Without the marker there is no id. */
  lemma SpotifyIdNeedsMarker(url: string, marker: string)
    requires marker != []
    ensures SpotifyId(url, marker).Some? <==> Contains(url, marker)
  {
    SplitHead(url, marker);
  }

  /** A marker shaped like "playlist/" or "album/": it ends with its only
      slash and holds no question mark. */
  predicate MarkerShape(marker: string) {
    && marker != []
    && marker[|marker| - 1] == '/'
    && '/' !in marker[..|marker| - 1]
    && '?' !in marker
  }

  /** The first occurrence of the marker in `prefix + marker + tail` is the
      one after `prefix`, when `prefix` does not contain the marker. */
  lemma MarkerFirstAt(prefix: string, marker: string, tail: string)
    requires MarkerShape(marker) && !Contains(prefix, marker)
    ensures Find(prefix + marker + tail, marker) == Some(|prefix|)
  {
    var s := prefix + marker + tail;
    var m := |marker|;
    assert s[|prefix|..|prefix| + m] == marker;
    forall k | 0 <= k < |prefix| ensures !OccursAt(s, marker, k) {
      if k + m <= |prefix| {
        assert !OccursAt(prefix, marker, k);
        assert s[k..k + m] == prefix[k..k + m];
      } else {
        var j := k + m - 1 - |prefix|;
        assert s[k + m - 1] == marker[j] == marker[..m - 1][j];
        assert s[k..k + m][m - 1] != marker[m - 1];
      }
    }
    FindIs(s, marker, |prefix|);
  }

  /** The field after the marker keeps the whole id: the next marker cannot
      start inside an id that has no slash and is followed by '?' or the end. */
  lemma FieldKeepsId(id: string, rest: string, marker: string)
    requires MarkerShape(marker)
    requires '/' !in id && (rest == [] || rest[0] == '?')
    ensures var f := Split(id + rest, marker)[0];
      |id| <= |f| && f[..|id|] == id && (|f| > |id| ==> f[|id|] == '?')
  {
    var s := id + rest;
    var m := |marker|;
    forall k | 0 <= k < |id| ensures !OccursAt(s, marker, k) {
      if k + m <= |s| {
        var last := k + m - 1;
        if last < |id| {
          assert s[last] == id[last];
          assert s[k..k + m][m - 1] != marker[m - 1];
        } else {
          assert s[|id|] == rest[0];
          assert s[k..k + m][|id| - k] != marker[|id| - k];
        }
      }
    }
    SplitHead(s, marker);
  }

  /** The text before the first '?' of `id + g`, where `g` is empty or starts
      with '?', is `id`. */
  lemma BeforeQuery(id: string, g: string)
    requires '?' !in id && (g == [] || g[0] == '?')
    ensures Split(id + g, "?")[0] == id
  {
    var s := id + g;
    if g == [] {
      assert s == id;
      FindAbsent(id, '?');
    } else {
      assert s[|id|..|id| + 1] == "?";
      forall k | 0 <= k < |id| ensures !OccursAt(s, "?", k) {
        assert s[k..k + 1][0] == id[k];
      }
      FindIs(s, "?", |id|);
    }
    SplitHead(s, "?");
  }

  /** Id extraction recovers the id of any link of the form
      prefix + marker + id + query, where the prefix holds no marker, the id
      holds no '/' or '?', and the query is empty or starts with '?'. */
  lemma SpotifyIdRoundTrip(prefix: string, marker: string, id: string, query: string)
    requires MarkerShape(marker) && !Contains(prefix, marker)
    requires '/' !in id && '?' !in id
    requires query == [] || query[0] == '?'
    ensures SpotifyId(prefix + marker + id + query, marker) == Some(id)
  {
    var url := prefix + marker + (id + query);
    assert prefix + marker + id + query == url;
    MarkerFirstAt(prefix, marker, id + query);
    assert url[..|prefix|] == prefix;
    assert url[|prefix| + |marker|..] == id + query;
    var parts := Split(url, marker);
    assert parts == [prefix] + Split(id + query, marker);
    FieldKeepsId(id, query, marker);
    var f := parts[1];
    assert f == f[..|id|] + f[|id|..];
    BeforeQuery(id, f[|id|..]);
  }

  lemma PlaylistIdRoundTrip(prefix: string, id: string, query: string)
    requires !Contains(prefix, "playlist/")
    requires '/' !in id && '?' !in id
    requires query == [] || query[0] == '?'
    ensures PlaylistId(prefix + "playlist/" + id + query) == Some(id)
  {
    assert MarkerShape("playlist/") by {
      assert "playlist/"[..8] == "playlist";
    }
    SpotifyIdRoundTrip(prefix, "playlist/", id, query);
  }

  lemma AlbumIdRoundTrip(prefix: string, id: string, query: string)
    requires !Contains(prefix, "album/")
    requires '/' !in id && '?' !in id
    requires query == [] || query[0] == '?'
    ensures AlbumId(prefix + "album/" + id + query) == Some(id)
  {
    assert MarkerShape("album/") by {
      assert "album/"[..5] == "album";
    }
    SpotifyIdRoundTrip(prefix, "album/", id, query);
  }

  /** `min(playlist_limit, 30)`. */
  function ClampLimit(limit: int): (r: int)
    ensures r <= 30 && r <= limit
    ensures r == limit || r == 30
  {
    if limit <= 30 then limit else 30
  }

  // ------------------------------------------------- catalog entries

  /** A track object of the Spotify API, as far as the cog reads it. */
  datatype SpotifyTrack = SpotifyTrack(
    name: string, artists: seq<string>, albumName: string,
    albumImages: seq<string>, url: string)

  /** A simplified album track (no album object of its own). */
  datatype AlbumItem = AlbumItem(name: string, artists: seq<string>, url: string)

  /** The album object: its name and cover images. */
  datatype AlbumInfo = AlbumInfo(name: string, images: seq<string>)

  function FirstOrNone(images: seq<string>): Option<string> {
    if images == [] then None else Some(images[0])
  }

  /** The search query built for every item: "name first-artist". */
  function SearchQuery(name: string, artist: string): string {
    name + " " + artist
  }

  /** The entry built for a playlist item; `artists[0]` on an item without
      artists raises, which is `None` here. */
  function PlaylistEntry(t: SpotifyTrack): (r: Option<CatalogEntry>)
    ensures r.Some? <==> t.artists != []
    ensures r.Some? ==> (
      && r.value.title == t.name && r.value.artist == t.artists[0]
      && r.value.query == SearchQuery(t.name, t.artists[0])
      && r.value.album == t.albumName && r.value.spotifyUrl == t.url
      && (r.value.coverUrl.Some? <==> t.albumImages != []))
  {
    if t.artists == [] then None
    else Some(CatalogEntry(SearchQuery(t.name, t.artists[0]), t.name, t.artists[0],
                           t.albumName, FirstOrNone(t.albumImages), t.url))
  }

  /** The entry built for an album item: album name and cover come from the
      album object, not from the item. */
  function AlbumEntry(item: AlbumItem, info: AlbumInfo): (r: Option<CatalogEntry>)
    ensures r.Some? <==> item.artists != []
    ensures r.Some? ==> (
      && r.value.title == item.name && r.value.artist == item.artists[0]
      && r.value.query == SearchQuery(item.name, item.artists[0])
      && r.value.album == info.name && r.value.coverUrl == FirstOrNone(info.images)
      && r.value.spotifyUrl == item.url)
  {
    if item.artists == [] then None
    else Some(CatalogEntry(SearchQuery(item.name, item.artists[0]), item.name, item.artists[0],
                           info.name, FirstOrNone(info.images), item.url))
  }

  /** `get_spotify_playlist_tracks` on one response page of `items`, where a
      `None` item is a removed track: skipped items, then the first raise
      turns the whole result into `None`. */
  function PlaylistEntries(items: seq<Option<SpotifyTrack>>): (r: Option<seq<CatalogEntry>>)
    ensures r.Some? ==> |r.value| <= |items|
  {
    if items == [] then Some([])
    else
      var init := PlaylistEntries(items[..|items| - 1]);
      var last := items[|items| - 1];
      if init.None? then None
      else if last.None? then init
      else
        var e := PlaylistEntry(last.value);
        if e.None? then None else Some(init.value + [e.value])
  }

  /** The present tracks of a playlist page, in order. */
  function PresentTracks(items: seq<Option<SpotifyTrack>>): (r: seq<SpotifyTrack>)
    ensures |r| <= |items|
  {
    if items == [] then []
    else PresentTracks(items[..|items| - 1])
         + (if items[|items| - 1].Some? then [items[|items| - 1].value] else [])
  }

  predicate AllHaveArtists(ts: seq<SpotifyTrack>) {
    forall i :: 0 <= i < |ts| ==> ts[i].artists != []
  }

  /** The playlist fetch succeeds exactly when every present track has an
      artist, and then yields one entry per present track, in order, each
      built from its track. */
  lemma {:induction false} PlaylistEntriesSpec(items: seq<Option<SpotifyTrack>>)
    ensures PlaylistEntries(items).Some? <==> AllHaveArtists(PresentTracks(items))
    ensures PlaylistEntries(items).Some? ==> EntriesOf(PlaylistEntries(items).value, PresentTracks(items))
  {
    if items != [] {
      var init := items[..|items| - 1];
      var last := items[|items| - 1];
      PlaylistEntriesSpec(init);
      var ts0 := PresentTracks(init);
      var ts := PresentTracks(items);
      assert ts[..|ts0|] == ts0;
      if !AllHaveArtists(ts0) {
        var i :| 0 <= i < |ts0| && ts0[i].artists == [];
        assert ts[i] == ts0[i];
      } else if last.None? {
        assert ts == ts0;
      } else {
        assert ts == ts0 + [last.value];
        if last.value.artists != [] {
          forall i | 0 <= i < |ts| ensures ts[i].artists != [] {
            if i < |ts0| {
              assert ts[i] == ts0[i];
            }
          }
        } else {
          assert ts[|ts0|].artists == [];
        }
      }
    }
  }

  /** `es` holds, position by position, the entries built from `ts`. */
  predicate EntriesOf(es: seq<CatalogEntry>, ts: seq<SpotifyTrack>) {
    |es| == |ts| && forall i :: 0 <= i < |ts| ==> Some(es[i]) == PlaylistEntry(ts[i])
  }

  /** `get_spotify_playlist_tracks` as the loop it is: entries are appended
      in item order, removed tracks skipped, and the first item without an
      artist aborts with `None`. */
  method FetchPlaylist(items: seq<Option<SpotifyTrack>>) returns (r: Option<seq<CatalogEntry>>)
    ensures r == PlaylistEntries(items)
  {
    var tracks: seq<CatalogEntry> := [];
    var i := 0;
    while i < |items|
      invariant 0 <= i <= |items|
      invariant PlaylistEntries(items[..i]) == Some(tracks)
    {
      assert items[..i + 1][..i] == items[..i];
      var item := items[i];
      if item.Some? {
        var e := PlaylistEntry(item.value);
        if e.None? {
          PlaylistAbortStays(items, i + 1);
          return None;
        }
        tracks := tracks + [e.value];
      }
      i := i + 1;
    }
    assert items[..i] == items;
    return Some(tracks);
  }

  /** Once a prefix of the items has failed, every longer prefix fails. */
  lemma {:induction false} PlaylistAbortStays(items: seq<Option<SpotifyTrack>>, k: nat)
    requires k <= |items| && PlaylistEntries(items[..k]).None?
    ensures PlaylistEntries(items).None?
    decreases |items| - k
  {
    if k < |items| {
      assert items[..k + 1][..k] == items[..k];
      PlaylistAbortStays(items, k + 1);
    } else {
      assert items[..k] == items;
    }
  }

  /** All entries of an album: every item of every page, in page order. */
  function AlbumEntries(pages: seq<seq<AlbumItem>>, info: AlbumInfo): (r: Option<seq<CatalogEntry>>)
  {
    if pages == [] then Some([])
    else
      var init := AlbumEntries(pages[..|pages| - 1], info);
      var more := PageEntries(pages[|pages| - 1], info);
      if init.None? || more.None? then None else Some(init.value + more.value)
  }

  function PageEntries(page: seq<AlbumItem>, info: AlbumInfo): (r: Option<seq<CatalogEntry>>)
    ensures r.Some? ==> |r.value| == |page|
  {
    if page == [] then Some([])
    else
      var init := PageEntries(page[..|page| - 1], info);
      var e := AlbumEntry(page[|page| - 1], info);
      if init.None? || e.None? then None else Some(init.value + [e.value])
  }

  function Flatten(pages: seq<seq<AlbumItem>>): seq<AlbumItem> {
    if pages == [] then [] else Flatten(pages[..|pages| - 1]) + pages[|pages| - 1]
  }

  lemma {:induction false} PageEntriesSpec(page: seq<AlbumItem>, info: AlbumInfo)
    ensures PageEntries(page, info).Some? <==> forall i :: 0 <= i < |page| ==> page[i].artists != []
    ensures PageEntries(page, info).Some? ==>
      forall i :: 0 <= i < |page| ==> Some(PageEntries(page, info).value[i]) == AlbumEntry(page[i], info)
  {
    if page != [] {
      PageEntriesSpec(page[..|page| - 1], info);
    }
  }

  /** Pagination does not matter: the album's entries are those of the
      concatenated pages, one per item, in order, each carrying the album's
      name and cover. */
  lemma {:induction false} AlbumEntriesFlat(pages: seq<seq<AlbumItem>>, info: AlbumInfo)
    ensures AlbumEntries(pages, info) == PageEntries(Flatten(pages), info)
  {
    if pages != [] {
      AlbumEntriesFlat(pages[..|pages| - 1], info);
      PageEntriesAppend(Flatten(pages[..|pages| - 1]), pages[|pages| - 1], info);
    }
  }

  lemma {:induction false} PageEntriesAppend(a: seq<AlbumItem>, b: seq<AlbumItem>, info: AlbumInfo)
    ensures PageEntries(a + b, info).Some? <==> PageEntries(a, info).Some? && PageEntries(b, info).Some?
    ensures PageEntries(a + b, info).Some? ==>
      PageEntries(a + b, info).value == PageEntries(a, info).value + PageEntries(b, info).value
    decreases |b|
  {
    if b == [] {
      assert a + b == a;
    } else {
      var b0, last := b[..|b| - 1], b[|b| - 1];
      assert (a + b)[..|a + b| - 1] == a + b0;
      assert (a + b)[|a + b| - 1] == last;
      PageEntriesAppend(a, b0, info);
      var e := AlbumEntry(last, info);
      if PageEntries(a, info).Some? && PageEntries(b0, info).Some? && e.Some? {
        var x, y := PageEntries(a, info).value, PageEntries(b0, info).value;
        assert x + y + [e.value] == x + (y + [e.value]);
      }
    }
  }

  /** `get_spotify_album_tracks`: the `while results` loop over the pages the
      service hands out one after the other, with the inner `for` loop over
      each page's items. */
  method FetchAlbum(pages: seq<seq<AlbumItem>>, info: AlbumInfo) returns (r: Option<seq<CatalogEntry>>)
    ensures r == AlbumEntries(pages, info)
  {
    var tracks: seq<CatalogEntry> := [];
    var p := 0;
    while p < |pages|
      invariant 0 <= p <= |pages|
      invariant AlbumEntries(pages[..p], info) == Some(tracks)
    {
      assert pages[..p + 1][..p] == pages[..p];
      var page := pages[p];
      var done := tracks;
      var j := 0;
      while j < |page|
        invariant 0 <= j <= |page|
        invariant PageEntries(page[..j], info).Some?
        invariant tracks == done + PageEntries(page[..j], info).value
      {
        assert page[..j + 1][..j] == page[..j];
        var e := AlbumEntry(page[j], info);
        if e.None? {
          PageAbortStays(page, j + 1, info);
          AlbumAbortStays(pages, p + 1, info);
          return None;
        }
        tracks := tracks + [e.value];
        j := j + 1;
      }
      assert page[..j] == page;
      p := p + 1;
    }
    assert pages[..p] == pages;
    return Some(tracks);
  }

  lemma {:induction false} PageAbortStays(page: seq<AlbumItem>, k: nat, info: AlbumInfo)
    requires k <= |page| && PageEntries(page[..k], info).None?
    ensures PageEntries(page, info).None?
    decreases |page| - k
  {
    if k < |page| {
      assert page[..k + 1][..k] == page[..k];
      PageAbortStays(page, k + 1, info);
    } else {
      assert page[..k] == page;
    }
  }

  lemma {:induction false} AlbumAbortStays(pages: seq<seq<AlbumItem>>, k: nat, info: AlbumInfo)
    requires 1 <= k <= |pages| && AlbumEntries(pages[..k - 1], info).Some?
    requires PageEntries(pages[k - 1], info).None?
    ensures AlbumEntries(pages, info).None?
    decreases |pages| - k
  {
    assert pages[..k][..k - 1] == pages[..k - 1];
    AlbumPrefixFails(pages, k, info);
  }

  lemma {:induction false} AlbumPrefixFails(pages: seq<seq<AlbumItem>>, k: nat, info: AlbumInfo)
    requires k <= |pages| && AlbumEntries(pages[..k], info).None?
    ensures AlbumEntries(pages, info).None?
    decreases |pages| - k
  {
    if k < |pages| {
      assert pages[..k + 1][..k] == pages[..k];
      AlbumPrefixFails(pages, k + 1, info);
    } else {
      assert pages[..k] == pages;
    }
  }

  // ------------------------------------------------------ bulk enqueue

  /** What one `wavelink.Playable.search` inside the `try` gave: no result,
      an exception (from the search or from `play`), or a first track. */
  datatype Resolution = NoResults | Raised | Found(track: Track)

  /** The state the bulk loop changes: the player, the guild's queue, the
      `added_tracks` counter and the counts at which the progress message
      was edited. */
  datatype BulkState = BulkState(player: Player, queue: seq<QueueEntry>, added: nat, progress: seq<nat>)

  /** One iteration of the album/playlist loop: a found track plays at once
      when the player is idle (and becomes the current info), and otherwise
      is appended as a `(track, info)` pair; every fifth success edits the
      progress message. */
  function BulkStep(s: BulkState, info: CatalogEntry, res: Resolution): (r: BulkState)
    ensures !res.Found? ==> r == s
    ensures res.Found? ==> r.added == s.added + 1
    ensures res.Found? ==> r.player.playing && (r.player.current == Some(res.track) || r.player == s.player)
    ensures res.Found? && s.player.playing ==> r.player == s.player && r.queue == s.queue + [WithInfo(res.track, info)]
    ensures res.Found? && !s.player.playing ==>
      r.queue == s.queue && r.player.current == Some(res.track) && r.player.currentInfo == Some(info)
    ensures res.Found? ==> r.progress == s.progress + (if r.added % 5 == 0 then [r.added] else [])
  {
    match res
    case Found(t) =>
      var added := s.added + 1;
      var progress := if added % 5 == 0 then s.progress + [added] else s.progress;
      if !s.player.playing then
        BulkState(Play(s.player, t).(currentInfo := Some(info)), s.queue, added, progress)
      else
        BulkState(s.player, s.queue + [WithInfo(t, info)], added, progress)
    case _ => s
  }

  /** The whole loop over `entries`, with `res[i]` the resolution of entry `i`. */
  function BulkRun(s: BulkState, entries: seq<CatalogEntry>, res: seq<Resolution>): (r: BulkState)
    requires |entries| == |res|
    ensures s.added <= r.added <= s.added + |entries|
  {
    if entries == [] then s
    else
      var n := |entries| - 1;
      BulkStep(BulkRun(s, entries[..n], res[..n]), entries[n], res[n])
  }

  function CountFound(res: seq<Resolution>): (r: nat)
    ensures r <= |res|
  {
    if res == [] then 0 else CountFound(res[..|res| - 1]) + (if res[|res| - 1].Found? then 1 else 0)
  }

  /** The `(track, info)` pairs of the successful entries, in catalog order. */
  function FoundEntries(entries: seq<CatalogEntry>, res: seq<Resolution>): (r: seq<QueueEntry>)
    requires |entries| == |res|
    ensures |r| == CountFound(res)
  {
    if entries == [] then []
    else
      var n := |entries| - 1;
      FoundEntries(entries[..n], res[..n]) + (if res[n].Found? then [WithInfo(res[n].track, entries[n])] else [])
  }

  /** The counter ends at its start plus the number of successful entries. */
  lemma {:induction false} BulkCounts(s: BulkState, entries: seq<CatalogEntry>, res: seq<Resolution>)
    requires |entries| == |res|
    ensures BulkRun(s, entries, res).added == s.added + CountFound(res)
  {
    if entries != [] {
      var n := |entries| - 1;
      BulkCounts(s, entries[..n], res[..n]);
    }
  }

  /** With the player already playing, every success is appended to the
      queue as a `(track, info)` pair, in catalog order, and the player is
      left alone. */
  lemma {:induction false} BulkWhilePlaying(s: BulkState, entries: seq<CatalogEntry>, res: seq<Resolution>)
    requires |entries| == |res| && s.player.playing
    ensures BulkRun(s, entries, res).queue == s.queue + FoundEntries(entries, res)
    ensures BulkRun(s, entries, res).player == s.player
  {
    if entries != [] {
      var n := |entries| - 1;
      BulkWhilePlaying(s, entries[..n], res[..n]);
    }
  }

  /** With the player idle, nothing changes until the first success, which
      starts playing with its info as the current info. */
  lemma {:induction false} BulkUntilFirst(s: BulkState, entries: seq<CatalogEntry>, res: seq<Resolution>)
    requires |entries| == |res| && CountFound(res) == 0
    ensures BulkRun(s, entries, res) == s
  {
    if entries != [] {
      var n := |entries| - 1;
      BulkUntilFirst(s, entries[..n], res[..n]);
    }
  }

  lemma {:induction false} BulkSplit(s: BulkState, entries: seq<CatalogEntry>, res: seq<Resolution>, k: nat)
    requires |entries| == |res| && k <= |entries|
    ensures BulkRun(s, entries, res) == BulkRun(BulkRun(s, entries[..k], res[..k]), entries[k..], res[k..])
    decreases |entries| - k
  {
    if k == |entries| {
      assert entries[..k] == entries && res[..k] == res;
      assert entries[k..] == [] && res[k..] == [];
    } else {
      BulkSplit(s, entries, res, k + 1);
      var m := BulkRun(s, entries[..k], res[..k]);
      assert entries[..k + 1][..k] == entries[..k] && res[..k + 1][..k] == res[..k];
      assert entries[k..][..1] == [entries[k]] && res[k..][..1] == [res[k]];
      assert entries[k + 1..] == entries[k..][1..] && res[k + 1..] == res[k..][1..];
      BulkHeadStep(m, entries[k..], res[k..]);
    }
  }

  /** One more iteration of the loop is one more `BulkStep`. */
  lemma BulkRunNext(s: BulkState, entries: seq<CatalogEntry>, res: seq<Resolution>, i: nat)
    requires |entries| == |res| && i < |entries|
    ensures BulkRun(s, entries[..i + 1], res[..i + 1]) == BulkStep(BulkRun(s, entries[..i], res[..i]), entries[i], res[i])
  {
    assert entries[..i + 1][..i] == entries[..i] && res[..i + 1][..i] == res[..i];
  }

  lemma {:induction false} BulkHeadStep(s: BulkState, entries: seq<CatalogEntry>, res: seq<Resolution>)
    requires |entries| == |res| && entries != []
    ensures BulkRun(s, entries, res) == BulkRun(BulkStep(s, entries[0], res[0]), entries[1..], res[1..])
    decreases |entries|
  {
    var n := |entries| - 1;
    if n > 0 {
      BulkHeadStep(s, entries[..n], res[..n]);
      assert entries[..n][1..] == entries[1..][..n - 1] && res[..n][1..] == res[1..][..n - 1];
      assert entries[1..][n - 1] == entries[n] && res[1..][n - 1] == res[n];
    } else {
      assert entries[..0] == [] && entries[1..] == [];
    }
  }

  lemma FoundEntriesSplit(entries: seq<CatalogEntry>, res: seq<Resolution>, k: nat)
    requires |entries| == |res| && k <= |entries|
    ensures FoundEntries(entries, res) == FoundEntries(entries[..k], res[..k]) + FoundEntries(entries[k..], res[k..])
  {
    assert entries == entries[..k] + entries[k..] && res == res[..k] + res[k..];
    FoundEntriesAppend(entries[..k], res[..k], entries[k..], res[k..]);
  }

  lemma {:induction false} FoundEntriesAppend(a: seq<CatalogEntry>, ra: seq<Resolution>, b: seq<CatalogEntry>, rb: seq<Resolution>)
    requires |a| == |ra| && |b| == |rb|
    ensures FoundEntries(a + b, ra + rb) == FoundEntries(a, ra) + FoundEntries(b, rb)
    decreases |b|
  {
    if b == [] {
      assert a + b == a && ra + rb == ra;
    } else {
      var n := |b| - 1;
      FoundEntriesAppend(a, ra, b[..n], rb[..n]);
      AppendBeforeLast(a, b);
      AppendBeforeLast(ra, rb);
      FoundEntriesLast(a + b, ra + rb);
      FoundEntriesLast(b, rb);
    }
  }

  /** The last element of `a + b` is that of `b`, and dropping it leaves `a`
      followed by `b` without its last element. */
  lemma AppendBeforeLast<T>(a: seq<T>, b: seq<T>)
    requires b != []
    ensures var n := |b| - 1;
      && (a + b)[..|a| + n] == a + b[..n]
      && (a + b)[|a| + n] == b[n]
  {
  }

  lemma FoundEntriesLast(entries: seq<CatalogEntry>, res: seq<Resolution>)
    requires |entries| == |res| && entries != []
    ensures var n := |entries| - 1;
      FoundEntries(entries, res)
      == FoundEntries(entries[..n], res[..n]) + (if res[n].Found? then [WithInfo(res[n].track, entries[n])] else [])
  {
  }

  /** With the player idle, the first successful entry starts playing and
      becomes the current info, and every later success is queued in order:
      the queue gains all `(track, info)` pairs but the first. */
  lemma BulkWhileIdle(s: BulkState, entries: seq<CatalogEntry>, res: seq<Resolution>, k: nat)
    requires |entries| == |res| && !s.player.playing
    requires k < |res| && res[k].Found? && CountFound(res[..k]) == 0
    ensures var r := BulkRun(s, entries, res);
      && r.player.current == Some(res[k].track)
      && r.player.currentInfo == Some(entries[k])
      && |FoundEntries(entries, res)| >= 1
      && r.queue == s.queue + FoundEntries(entries, res)[1..]
  {
    BulkSplit(s, entries, res, k);
    BulkUntilFirst(s, entries[..k], res[..k]);
    var rest, rres := entries[k..], res[k..];
    BulkHeadStep(s, rest, rres);
    var s1 := BulkStep(s, rest[0], rres[0]);
    BulkWhilePlaying(s1, rest[1..], rres[1..]);
    FoundEntriesSplit(entries, res, k);
    assert FoundEntries(entries[..k], res[..k]) == [];
    FoundEntriesSplit(rest, rres, 1);
    assert rest[..1] == [entries[k]] && rres[..1] == [res[k]];
    assert FoundEntries(rest[..1], rres[..1]) == [WithInfo(res[k].track, entries[k])] by {
      assert rest[..1][..0] == [] && rres[..1][..0] == [];
    }
    assert rest[1..] == rest[1..] && FoundEntries(entries, res) == [WithInfo(res[k].track, entries[k])] + FoundEntries(rest[1..], rres[1..]);
  }

  /** Progress edits: starting from a zero counter, the message is edited
      exactly at the counts that are multiples of 5, in increasing order. */
  lemma {:induction false} BulkProgress(s: BulkState, entries: seq<CatalogEntry>, res: seq<Resolution>)
    requires |entries| == |res| && s.added == 0 && s.progress == []
    ensures forall x :: x in BulkRun(s, entries, res).progress <==>
      0 < x <= BulkRun(s, entries, res).added && x % 5 == 0
    ensures forall i, j :: 0 <= i < j < |BulkRun(s, entries, res).progress| ==>
      BulkRun(s, entries, res).progress[i] < BulkRun(s, entries, res).progress[j]
  {
    if entries != [] {
      var n := |entries| - 1;
      BulkProgress(s, entries[..n], res[..n]);
      var a := BulkRun(s, entries[..n], res[..n]);
      var b := BulkStep(a, entries[n], res[n]);
      assert BulkRun(s, entries, res) == b;
      if res[n].Found? {
        assert b.added == a.added + 1;
        forall i | 0 <= i < |a.progress| ensures a.progress[i] <= a.added {
          assert a.progress[i] in a.progress;
        }
        if b.added % 5 == 0 {
          assert b.progress == a.progress + [b.added];
        } else {
          assert b.progress == a.progress;
        }
      } else {
        assert b == a;
      }
    }
  }

  // ----------------------------------------------------- final notices

  /** The description shown by the bulk message: the initial loading text
      (with the entry count for albums), a progress line, or the "added"
      summary. */
  datatype Notice = Loading(count: Option<nat>) | Progress(added: nat, total: nat) | Done(added: nat)

  /** What the description of the progress embed last became. */
  function ProgressNotice(initial: Notice, added: nat, total: nat): (r: Notice)
    ensures added < 5 ==> r == initial
    ensures added >= 5 ==> r.Progress? && r.total == total && r.added % 5 == 0 && added - 5 < r.added <= added
  {
    if added >= 5 then Progress(added - added % 5, total) else initial
  }

  /** The album branch as written: the final edit passes `embed` instead of
      the `final_embed` it has just built, so the message keeps the last
      progress (or loading) text. */
  function AlbumFinalNoticeAsWritten(added: nat, total: nat): Notice {
    ProgressNotice(Loading(Some(total)), added, total)
  }

  /** The album branch as evidently intended, and the playlist branch as
      written: the final edit shows how many tracks were added. */
  function FinalNotice(added: nat): Notice {
    Done(added)
  }

  /** The album's final message never reports completion: with three tracks
      found out of three it still reads "loading 3 tracks", and with seven it
      reads "5/7 added". */
  lemma AlbumFinalNoticeNeverDone(added: nat, total: nat)
    ensures !AlbumFinalNoticeAsWritten(added, total).Done?
    ensures AlbumFinalNoticeAsWritten(3, 3) == Loading(Some(3))
    ensures AlbumFinalNoticeAsWritten(7, 7) == Progress(5, 7)
    ensures FinalNotice(added).Done? && FinalNotice(added).added == added
  {
  }
}
