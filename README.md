# ICUtils rules, modelled in Dafny

ICUtils is a Discord bot built from "cogs". Each cog wraps Discord,
Lavalink, Spotify, HTTP and MongoDB calls around a few small rules that act
on in-memory dictionaries and lists. This project models those rules and
proves what they guarantee. Each async handler is modelled as one atomic step.
The outside services become parameters: oracles whose answers are fixed in
advance.

Modules:

- `PyText` (pytext.dfy): the Python string and list built-ins the cogs rely on.
  - `str.lower`, `startswith`, `endswith`, `in`, `find`, `split`, `join`, `strip`.
  - `int()` and `str(int)`.
  - Append-if-absent and `list.remove`.
- `MusicQueue` (music_queue.dfy): the music cog's pure rules.
  - Queue entries, which are a bare track or a `(track, info)` pair.
  - `list.pop` and `list.insert` index semantics, and `remove` and `move`.
  - The track-end state machine and the three loop modes.
  - The paged `queue` listing, `seek` parsing and `format_time`.
- `MusicCatalog` (music_catalog.dfy): the catalog side of `play`.
  - Spotify playlist and album id extraction, and the `min(limit, 30)` clamp.
  - Entry construction and the album pagination loop.
  - The bulk-enqueue loop with its counter and progress edits.
- `Music` (music_cog.dfy): the class `MusicCog`.
  - It holds the per-guild `queues`, `loop_mode` and players.
  - It has one method per command, each proved equal to a pure step function.
- `Reports` (reports.dfy): the report registry.
  - Case-id allocation, and the agreed and blocked lists.
  - Report creation, listing and deletion, and the appeal fields.
  - `ReportsCog` is the class that mutates the registry.
- `Ideas` (ideas.dfy): idea records, one vote per user, decisions, and the embed-field refresh.
  - `IdeasCog` is the class over the `ideas` map.
- `Utils` (utils.py's rules, in utils.dfy):
  - the `remind` duration parser, its bounds and its readable echo;
  - the role-list truncation of `user`.
- `Anonymous` (anonymous.dfy): the anonymous-message link filter.
  - Host extraction and the suffix whitelist.
  - Invite detection and URL replacement.
  - The guards of `anon`.
- `AiRewrite` (ai_rewrite.dfy): the AI cog's bookkeeping, with class `AiCog`.
  - Provider choice, prompt and message assembly, and the history discipline.
  - 2000-character chunking, the block list, and the autocompletes.
- `Levels` (levels.dfy): the experimental XP cog, with class `LevelsCog`.
  - The cumulative-threshold level loop of `add_xp`.
  - Default user and guild documents, and the `on_message` gates.
  - The settings commands.

## Code and documentation disagreements

Where the code differs from the project's own description, the model follows the code. The three defects under "## Findings" are the exception: each is modelled as written by its own member, and the cog's commands use the corrected definition (see "## Left out").

- `seek` accepts negative numbers. `int("-5")` parses, and nothing rejects the result.
- On track end in `queue` loop mode, the entry that was just popped is re-appended, not the previously playing track.
- The track-end guard needs a non-empty queue in every mode, so `track` loop mode stops repeating once the queue is empty.
- The single-track branch of `play` does not set `current_track_info`; only the bulk loop does.
- `url_pattern` is assigned twice in `anonymous.py`. Only the second, `http(s)://`-only pattern takes effect.
  - Its character class `[$-_]` is the range `$`..`_`.
  - It is case-sensitive, so `HTTP://` is not filtered.
- An appeal is accepted only from the report's `reported_by`, which is the reporter.
- `on_message` in the AI cog has no block check. Only `ask` consults the block list.
- In the levels cog, `get_user_data` creates a new user with `last_xp_time = now`. A new user's first message therefore earns nothing while the cooldown is positive.

## Model

| member | source | states |
|---|---|---|
| PyText.Lower | cogs/utils.py:124 | `str.lower` maps each character of the string and keeps the length |
| PyText.LowerIdempotent | cogs/anonymous.py:53 | lowering twice is lowering once |
| PyText.FindFrom | cogs/music.py:78 | the first occurrence at or after `k`, and `None` exactly when there is none |
| PyText.SplitHead | cogs/music.py:78 | the first field of `split` is the text before the first separator, and the whole string when there is none |
| PyText.JoinSplit | cogs/utils.py:162 | `sep.join(s.split(sep)) == s` |
| PyText.SplitJoin | cogs/utils.py:162 | splitting a join over a one-character separator recovers the parts, when no part contains it |
| PyText.SplitCount | cogs/music.py:361 | `s.split(c)` has one more field than `s` has occurrences of `c` |
| PyText.NatToString | cogs/utils.py:158-161 | `str(n)` is non-empty, all digits, and has no leading zero |
| PyText.NatToStringValue | cogs/utils.py:138-141 | the digits of `str(n)` read back as `n` |
| PyText.ParseIntToString | cogs/music.py:366 | `int(str(i)) == i` for every integer |
| PyText.StripLeft | cogs/ai_rewrite.py:30 | `lstrip` removes a prefix and leaves no leading blank |
| PyText.StripRight | cogs/ai_rewrite.py:30 | `rstrip` removes a suffix and leaves no trailing blank |
| PyText.AddIfAbsent | cogs/reports.py:44-47 | the value is in the result, membership grows by exactly it, and no duplicate is created |
| PyText.RemoveFirst | cogs/reports.py:57-60 | `list.remove` of a present value shortens the list by one |
| PyText.RemoveFirstSpec | cogs/reports.py:57-60 | on a list without duplicates, the removed value is gone and every other member stays |
| PyText.BlockThenUnblock | cogs/reports.py:52-60 | block then unblock restores a list that lacked the value, and always leaves it absent |
| PyText.RemoveLast | cogs/ai_rewrite.py:205-223 | removing the value that was appended last gives back the original list |
| MusicQueue.Play | cogs/music.py:180 | playing a track makes it current and sets the player playing |
| MusicQueue.PopIndex | cogs/music.py:407 | `pop(i)` succeeds iff `-len <= i < len`, and a negative index counts from the end |
| MusicQueue.InsertIndex | cogs/music.py:426 | `insert` past the end appends, and before the start prepends |
| MusicQueue.RemoveAt | cogs/music.py:407 | deleting one index removes exactly that entry from the multiset |
| MusicQueue.InsertAt | cogs/music.py:426 | inserting adds exactly that entry at the index |
| MusicQueue.Remove | cogs/music.py:401-410 | an empty queue gives "queue empty" and is unchanged; position p in 1..len removes index p-1 and keeps the rest in order; position 0 removes the last entry; a negative position p in 1-len..-1 removes index len+p-1, counting from the end as `pop` does; other out-of-range positions leave the queue unchanged |
| MusicQueue.Move | cogs/music.py:419-429 | pop-then-insert keeps the length and the multiset; an invalid source leaves the queue unchanged |
| MusicQueue.Events | cogs/music.py:526-557 | n track-end events in a row never lengthen the queue |
| MusicQueue.ListingLine | cogs/music.py:325-326 | one listing line ends with the entry's title and holds no newline when the title has none |
| MusicQueue.QueueListing | cogs/music.py:318-330 | there is no listing, only "queue empty", iff the queue is empty |
| MusicQueue.RemoveExample | cogs/music.py:401-410 | `remove(2)` on [a,b,c] gives [a,c] |
| MusicQueue.MoveExample | cogs/music.py:419-429 | `move(3,1)` on [a,b,c,d] gives [c,a,b,d] |
| MusicQueue.MoveToTail | cogs/music.py:425-426 | a target past the new end lands the entry at the tail |
| MusicQueue.MoveThenMoveBack | cogs/music.py:425-426 | moving to `t` and back to `f` restores the queue |
| MusicQueue.EditReplyAsWritten | cogs/music.py:408 | the reply reads `.title` on the popped entry, which raises for a `(track, info)` pair |
| MusicQueue.EditReplyIntended | cogs/music.py:408 | the reply names the removed track's title and never raises |
| MusicQueue.RemoveTupleReplyRaises | cogs/music.py:407-408 | removing a pair entry empties the queue and then raises in the reply |
| MusicQueue.TrackEndStep | cogs/music.py:535-555 | nothing changes while playing or with an empty queue; `track` replays the current track; `queue` pops the head, plays it and re-appends it; `none` pops and plays the head; when `play` raises, the pop has already happened, so in `queue` mode the head is lost, and the player is left as it was; the queue never gets longer |
| MusicQueue.TrackEndKeepsEntries | cogs/music.py:535-555 | a track end adds no entry: what is left is a sub-multiset of the queue |
| MusicQueue.LoopTrackRepeats | cogs/music.py:540-541 | in `track` mode any number of events leaves the queue as it is and keeps the same track current |
| MusicQueue.RotateStep | cogs/music.py:543-546 | one `queue`-mode event turns rotation k into rotation k+1 |
| MusicQueue.EventsCompose | cogs/music.py:526-557 | a run of a+b events is b events after a events |
| MusicQueue.LoopQueueFirstRound | cogs/music.py:543-549 | the first k events of `queue` mode rotate the queue left by k |
| MusicQueue.LoopQueueKeepsLength | cogs/music.py:543-549 | `queue` mode preserves the queue's length |
| MusicQueue.LoopQueueStepPlaysHead | cogs/music.py:543-546 | each `queue`-mode event plays the head of the queue before it |
| MusicQueue.LoopQueuePeriodic | cogs/music.py:543-549 | `queue` mode is periodic with period len |
| MusicQueue.LoopQueueRounds | cogs/music.py:543-549 | after c*len+k events the queue is rotated left by k |
| MusicQueue.LoopQueueRotation | cogs/music.py:543-549 | after n events the queue is rotated left by n mod len |
| MusicQueue.LoopQueueRotates | cogs/music.py:543-549 | after n events the queue is rotated by n mod len, and entry (n-1) mod len is current |
| MusicQueue.LoopQueuePeriod | cogs/music.py:543-549 | after len events the original order returns |
| MusicQueue.NoLoopDrains | cogs/music.py:550-555 | in `none` mode, n events drop the first n entries, and the n-th is current |
| MusicQueue.EmptyQueueStaysIdle | cogs/music.py:535 | with an empty queue no event changes the queue or the current track |
| MusicQueue.ListingLines | cogs/music.py:324-330 | the listing has one line per entry up to ten, plus one remainder line beyond ten |
| MusicQueue.ListingLinesReadBack | cogs/music.py:318-338 | read back line by line, the listing gives the numbered titles of the first ten entries and the count of the rest |
| MusicQueue.Seek | cogs/music.py:355-374 | refused unless playing; otherwise "invalid format" iff the position does not parse, and the seek target is the parsed milliseconds |
| MusicQueue.ParseSeek | cogs/music.py:362-366 | a parsed position is a whole number of seconds in milliseconds |
| MusicQueue.MinutesSeconds | cogs/music.py:362-364 | the colon form parses only with exactly two fields, to whole seconds in milliseconds |
| MusicQueue.ColonSplit | cogs/music.py:361-362 | a single colon splits "a:b" into exactly [a, b] |
| MusicQueue.SeekColonForm | cogs/music.py:361-364 | "m:s" gives (m*60+s)*1000 |
| MusicQueue.NoColonInNumber | cogs/music.py:361 | a rendered number holds no colon |
| MusicQueue.SeekMinutesSeconds | cogs/music.py:361-364 | the rendered "m:s" form parses to (m*60+s)*1000 |
| MusicQueue.SeekSeconds | cogs/music.py:365-366 | a plain integer n, negative included, gives n*1000 |
| MusicQueue.SeekEquivalentForms | cogs/music.py:361-366 | "1:30" and "90" both give 90000 |
| MusicQueue.SeekTwoColons | cogs/music.py:361-364 | two colons give "invalid format" |
| MusicQueue.TwoDigitsPadded | cogs/music.py:19 | a seconds value below ten is zero-padded and still parses back |
| MusicQueue.TwoDigitsParse | cogs/music.py:19 | the seconds field has two characters, no colon, and parses back to its value |
| MusicQueue.TwoDigits | cogs/music.py:19 | `{secs:02d}` is all digits, and exactly two of them below 100 |
| MusicQueue.FormatTime | cogs/music.py:15-19 | the text ends with a colon and two digits |
| MusicQueue.FormatTimeReadsBack | cogs/music.py:15-19 | `format_time(n)` is "minutes:ss" with minutes = n div 60 and no wrap into hours; read back by `seek`'s parser it gives n*1000 |
| MusicQueue.FormatTimeExample | cogs/music.py:15-19 | 90 seconds renders as "1:30" |
| MusicCatalog.SpotifyIdNeedsMarker | cogs/music.py:78 | id extraction fails (`IndexError`) iff the marker does not occur |
| MusicCatalog.SpotifyId | cogs/music.py:78 | an extracted id holds no `?` |
| MusicCatalog.PlaylistId | cogs/music.py:78 | an id is extracted iff the link contains "playlist/", and it holds no `?` |
| MusicCatalog.AlbumId | cogs/music.py:106 | an id is extracted iff the link contains "album/", and it holds no `?` |
| MusicCatalog.MarkerFirstAt | cogs/music.py:78 | the marker's first occurrence is the one after a prefix that lacks it |
| MusicCatalog.FieldKeepsId | cogs/music.py:78 | the field after the marker keeps the whole id and its query |
| MusicCatalog.BeforeQuery | cogs/music.py:78 | `.split('?')[0]` cuts exactly the query string |
| MusicCatalog.SpotifyIdRoundTrip | cogs/music.py:78 | extraction recovers the id of any link `prefix + marker + id + query` |
| MusicCatalog.PlaylistIdRoundTrip | cogs/music.py:78 | playlist links give back their id |
| MusicCatalog.AlbumIdRoundTrip | cogs/music.py:106 | album links give back their id |
| MusicCatalog.ClampLimit | cogs/music.py:206 | `min(limit, 30)`: at most 30, at most the limit, and equal to one of them |
| MusicCatalog.PlaylistEntry | cogs/music.py:85-96 | an entry exists iff the track has an artist; its query is "name first-artist" and its fields come from the track |
| MusicCatalog.SearchQuery | cogs/music.py:88 | the search text is the track name, a space, and the first artist; `PlaylistEntry` and `AlbumEntry` state where the parts come from |
| MusicCatalog.AlbumEntry | cogs/music.py:116-125 | an entry exists iff the item has an artist; album name and cover come from the album object |
| MusicCatalog.PlaylistEntries | cogs/music.py:84-100 | a successful fetch has at most one entry per item |
| MusicCatalog.PresentTracks | cogs/music.py:85-86 | the present tracks are at most the items |
| MusicCatalog.PlaylistEntriesSpec | cogs/music.py:84-100 | the fetch succeeds iff every present track has an artist, and then holds their entries position by position, with the `None` tracks skipped |
| MusicCatalog.FetchPlaylist | cogs/music.py:74-100 | the loop returns exactly the specified entries, or `None` |
| MusicCatalog.PlaylistAbortStays | cogs/music.py:98-100 | once a prefix raises, the whole fetch returns `None` |
| MusicCatalog.PageEntries | cogs/music.py:116-125 | a successful page gives one entry per item |
| MusicCatalog.PageEntriesSpec | cogs/music.py:116-125 | a page succeeds iff every item has an artist, and then entry i is built from item i |
| MusicCatalog.AlbumEntriesFlat | cogs/music.py:115-130 | the page boundaries do not matter: the album's entries are those of the concatenated pages |
| MusicCatalog.PageEntriesAppend | cogs/music.py:115-130 | two runs of items succeed together iff both succeed, with the entries concatenated |
| MusicCatalog.FetchAlbum | cogs/music.py:102-135 | the `while results` loop returns exactly the entries of all pages, or `None` |
| MusicCatalog.PageAbortStays | cogs/music.py:133-135 | an item without an artist aborts its page |
| MusicCatalog.AlbumAbortStays | cogs/music.py:133-135 | a page that aborts aborts the album |
| MusicCatalog.AlbumPrefixFails | cogs/music.py:133-135 | once a prefix of the pages fails, the whole album fails |
| MusicCatalog.BulkStep | cogs/music.py:174-192 | a failed or empty search, or an exception from the search or from `play`, changes nothing; a success adds one to the count, and on an idle player plays the track and records its info with the queue kept, while on a busy player it appends the `(track, info)` pair with the player kept; the count is recorded for the progress edit exactly when it is a multiple of 5 |
| MusicCatalog.BulkRun | cogs/music.py:174-192 | the loop over a catalog adds between zero and one per entry to the count |
| MusicCatalog.ProgressNotice | cogs/music.py:186-188 | below five successes the loading notice stays; from five on it shows the total and the last multiple of five reached |
| MusicCatalog.CountFound | cogs/music.py:184 | the number of successes is at most the number of entries |
| MusicCatalog.FoundEntries | cogs/music.py:183 | one queued pair per success |
| MusicCatalog.BulkCounts | cogs/music.py:184 | the final count is the number of successful searches |
| MusicCatalog.BulkWhilePlaying | cogs/music.py:179-183 | on a busy player every success is appended in catalog order and the player is untouched |
| MusicCatalog.BulkUntilFirst | cogs/music.py:190-192 | with no success, nothing changes |
| MusicCatalog.BulkSplit | cogs/music.py:174 | the loop over a catalog is the loop over its tail after the loop over its head |
| MusicCatalog.BulkHeadStep | cogs/music.py:174 | the loop is one step on the first entry, then the loop on the rest |
| MusicCatalog.FoundEntriesSplit | cogs/music.py:183 | the queued pairs of a catalog are those of its head, then those of its tail |
| MusicCatalog.BulkWhileIdle | cogs/music.py:179-183 | on an idle player the first success plays, and every later success is queued in order |
| MusicCatalog.BulkProgress | cogs/music.py:186-188 | progress edits happen exactly at the positive multiples of 5 up to the final count, in increasing order |
| MusicCatalog.AlbumFinalNoticeNeverDone | cogs/music.py:194-200 | as written, the album's last edit never shows completion; the corrected notice does, with the count |
| Music.GetQueueStep | cogs/music.py:50-54 | the guild gets a queue, an empty one if it had none; other queues, loop modes and players are unchanged |
| Music.BulkOnGuild | cogs/music.py:174-200 | the bulk loop touches only this guild's queue and player, keeps the loop modes, and ends in a completed notice counting at most the catalog's entries |
| Music.PlayConnected | cogs/music.py:156-289 | the guild ends with a queue and a player, the loop modes are kept, other guilds are untouched, and a failed catalog or search leaves the state as `get_queue` made it |
| Music.PlayStep | cogs/music.py:142-289 | "join voice" or a connection error iff the bot has no player and the caller cannot be joined, and then nothing changes; otherwise the guild ends with a queue and a player |
| Music.StopStep | cogs/music.py:340-351 | stopped iff the guild has a player; stopping empties its queue and removes its player, and a refusal changes nothing |
| Music.ClearStep | cogs/music.py:412-415 | this guild's queue becomes empty, and nothing else changes |
| Music.RemoveStep | cogs/music.py:399-410 | only this guild's queue changes; a removal shortens it by one and leaves a sub-multiset; any other reply leaves the state as `get_queue` made it |
| Music.MoveStep | cogs/music.py:417-429 | only this guild's queue changes, and it keeps its multiset; a refusal leaves the state as `get_queue` made it |
| Music.TrackEndOnGuild | cogs/music.py:526-557 | a track end touches only this guild's queue and player, and never lengthens the queue |
| Music.Resolutions | cogs/music.py:176 | one search result per entry, in order |
| Music.PlayWithoutVoiceChangesNothing | cogs/music.py:145-154 | a caller outside voice, or a failed connection, changes no state, not even by creating a queue |
| Music.FailedCatalogOnlyCreatesQueue | cogs/music.py:157-164 | a failed or empty album or playlist aborts after `get_queue`, before any player or queue change |
| Music.BulkOnBusyPlayerAppends | cogs/music.py:174-192 | on a busy player the guild's queue grows by the found pairs, in catalog order |
| Music.SingleTrack | cogs/music.py:252-289 | a single found track is appended bare on a busy player, and played on an idle one |
| Music.ListStep | cogs/music.py:317-338 | the listing creates the queue if needed, and is "queue empty" iff the queue is empty |
| Music.StopAndClearKeepLoopMode | cogs/music.py:340-351 | `clear` and `stop` empty exactly this guild's queue; other guilds and the loop mode are untouched; `stop` disconnects the player and is refused without one |
| Music.LoopStep | cogs/music.py:383-385 | the guild's loop mode becomes the chosen mode; other guilds, queues and players are untouched |
| Music.EditsAreLocal | cogs/music.py:399-429 | `remove` and `move` touch only this guild's queue, and an invalid position leaves the state as `get_queue` made it |
| Music.TrackEndGuards | cogs/music.py:532-535 | a guild without a queue, a playing player or an empty queue leaves the state unchanged, and no queue entry is created |
| Music.ShuffleSeq | cogs/music.py:395-396 | the shuffle is a permutation of the queue |
| Music.MusicCog.constructor | cogs/music.py:22-26 | no queues, no loop modes and no players |
| Music.MusicCog.GetQueue | cogs/music.py:50-54 | returns the queue and stores `GetQueueStep`'s state |
| Music.FetchAlbumCatalog | cogs/music.py:102-135 | the id, album request and pagination loop give `AlbumCatalog`'s entries |
| Music.FetchPlaylistCatalog | cogs/music.py:74-100 | the id, clamped request and item loop give `PlaylistCatalog`'s entries |
| Music.MusicCog.EnqueueOne | cogs/music.py:175-192 | one pass of the bulk loop performs `BulkStep` on the guild's player and queue; nothing else changes |
| Music.MusicCog.BulkEnqueue | cogs/music.py:174-200 | the `for` loop with its counter gives the bulk run's final state and the progress edits, then the corrected final notice |
| Music.MusicCog.PlayOnConnected | cogs/music.py:156-289 | the album, playlist and single-track branches give `PlayConnected`'s state and reply |
| Music.MusicCog.PlayCommand | cogs/music.py:142-289 | the whole command gives `PlayStep`'s state and reply |
| Music.MusicCog.ListQueue | cogs/music.py:317-338 | gives `ListStep`'s state and listing |
| Music.MusicCog.Stop | cogs/music.py:340-351 | gives `StopStep`'s state and reply |
| Music.MusicCog.Seek | cogs/music.py:353-374 | "nothing playing" iff the guild has no player or it is not playing; "invalid format" iff it is playing and the position does not parse; otherwise the player seeks to the parsed milliseconds; nothing else changes |
| Music.MusicCog.SetLoop | cogs/music.py:383-385 | gives `LoopStep`'s state |
| Music.MusicCog.Shuffle | cogs/music.py:389-397 | the guild's queue becomes a permutation of itself, and the reply is "queue empty" iff it was empty |
| Music.MusicCog.RemoveCommand | cogs/music.py:399-410 | gives `RemoveStep`'s state and its corrected reply |
| Music.MusicCog.Clear | cogs/music.py:412-415 | gives `ClearStep`'s state |
| Music.MusicCog.MoveCommand | cogs/music.py:417-429 | gives `MoveStep`'s state and its corrected reply |
| Music.MusicCog.OnTrackEnd | cogs/music.py:526-557 | gives `TrackEndOnGuild`'s state |
| Reports.MaxCaseId | cogs/reports.py:38-39 | the maximum case id bounds every id and is one of them |
| Reports.NextCaseId | cogs/reports.py:36-39 | 1 for an empty list, otherwise max+1; strictly greater than every existing id |
| Reports.ReportGate | cogs/reports.py:68-77 | a blocked reporter is refused; an unblocked reporter who has not agreed gets the first-report warning |
| Reports.ReportsAbout | cogs/reports.py:154 | the filter keeps at most all the records |
| Reports.ReportsAboutSpec | cogs/reports.py:154 | exactly the records about the user are kept |
| Reports.ReportsAboutAppend | cogs/reports.py:154 | the filter keeps stored order |
| Reports.ListReports | cogs/reports.py:149-166 | a listing is non-empty and is exactly the filtered records |
| Reports.FindCase | cogs/reports.py:171-172 | the first record with the case id, and `None` iff there is none |
| Reports.DeleteReport | cogs/reports.py:170-178 | deletion fails iff no record has the id, and otherwise removes one record |
| Reports.DeleteRemovesCase | cogs/reports.py:170-178 | deletion removes the first matching record and keeps the rest in order |
| Reports.UpdateCase | cogs/reports.py:238-246 | an update changes only the first matching record, and nothing without a match |
| Reports.AppealCheck | cogs/reports.py:294-308 | the appeal form opens iff the report exists, is not yet appealed, and the requester is its `reported_by` |
| Reports.CreateStepSpec | cogs/reports.py:98-145 | creation appends exactly one pending, unappealed record with a fresh case id, and marks the reporter as agreed |
| Reports.CreateStep | cogs/reports.py:98-145 | one record is appended after the old ones, about the target, by the reporter, with the reason and status under review; the reporter is marked as agreed and the block list is kept |
| Reports.MarkAccepted | cogs/reports.py:245 | the status becomes accepted and no other field changes |
| Reports.RecordAppeal | cogs/reports.py:333-335 | `appealed`, the text and a pending appeal status are set, and no other field changes |
| Reports.MarkAppealAccepted | cogs/reports.py:384 | the appeal status becomes accepted and no other field changes |
| Reports.RejectAppealWith | cogs/reports.py:433-434 | the appeal status becomes rejected with the reason, and no other field changes |
| Reports.UpdatesTouchOnlyTheirFields | cogs/reports.py:238-246 | accepting a report, submitting an appeal and deciding it each overwrite only their own fields |
| Reports.UpdateKeepsIds | cogs/reports.py:238-246 | updates keep case ids distinct |
| Reports.AppealOnlyOnce | cogs/reports.py:294-308 | after an appeal is submitted, a second one is refused |
| Reports.FindCaseSameIds | cogs/reports.py:171-172 | lookup depends only on the case ids |
| Reports.ReportsCog.constructor | cogs/reports.py:17-24 | without a stored file, the registry has no reports, no agreed users and no blocked users |
| Reports.ReportsCog.MarkUserAsAgreed | cogs/reports.py:44-47 | append only when absent |
| Reports.ReportsCog.BlockUser | cogs/reports.py:52-55 | append only when absent |
| Reports.ReportsCog.UnblockUser | cogs/reports.py:57-60 | remove only when present |
| Reports.ReportsCog.CreateReport | cogs/reports.py:98-145 | gives `CreateStep`'s registry |
| Reports.ReportsCog.DeleteCase | cogs/reports.py:170-178 | found iff a record has the id; a hit removes it, and a miss changes nothing |
| Reports.ReportsCog.BanReports | cogs/reports.py:182-191 | admins only; "already blocked" iff the user was blocked |
| Reports.ReportsCog.UnbanReports | cogs/reports.py:195-204 | admins only; "not blocked" iff the user was not blocked |
| Reports.ReportsCog.AcceptReport | cogs/reports.py:238-246 | admins only; marks the case accepted |
| Reports.ReportsCog.SubmitAppeal | cogs/reports.py:327-370 | found iff the case exists; sets `appealed`, the text and the pending appeal status |
| Reports.ReportsCog.AcceptAppeal | cogs/reports.py:381-385 | overwrites only the appeal status |
| Reports.ReportsCog.RejectAppeal | cogs/reports.py:430-435 | overwrites only the appeal status and the rejection reason |
| Ideas.NewIdea | cogs/ideas.py:76-84 | a new idea is pending, with no votes and no decision reason |
| Ideas.SuggestStep | cogs/ideas.py:48-91 | an idea is stored iff the channel is configured and found; otherwise nothing changes |
| Ideas.VoteOptions | cogs/ideas.py:158-170 | five options |
| Ideas.OptionsFrom | cogs/ideas.py:160-163 | the options are `str(i)` for consecutive i |
| Ideas.VoteOptionsInRange | cogs/ideas.py:160-163 | the options are exactly "1".."5" |
| Ideas.StarsOf | cogs/ideas.py:188 | every option parses to a value from 1 to 5 |
| Ideas.VoteStep | cogs/ideas.py:173-202 | unknown idea, closed voting and own idea are refused with the votes unchanged, each exactly in its case |
| Ideas.VoteRecordsOneVote | cogs/ideas.py:188-199 | an accepted vote sets exactly that voter's entry and keeps every other vote |
| Ideas.RevoteSameIsNoOp | cogs/ideas.py:189-193 | voting the same value again changes nothing |
| Ideas.DecideStep | cogs/ideas.py:219-227 | the decision sets status and reason of that idea only |
| Ideas.DecisionClosesVoting | cogs/ideas.py:179-226 | after a decision every vote is refused |
| Ideas.Total | cogs/ideas.py:41 | the sum of n votes in 1..5 lies between n and 5n |
| Ideas.RatingOf | cogs/ideas.py:38-41 | no votes gives the empty rating; otherwise the average is over all votes and lies in 1..5 |
| Ideas.SetNamed | cogs/ideas.py:109-111 | `set_field_at` on every field with the name, and no other change |
| Ideas.SetNamedInPlace | cogs/ideas.py:109-111 | the in-place loop gives exactly `SetNamed` |
| Ideas.CountNamedPositive | cogs/ideas.py:124 | `any(field.name == ...)` iff the name occurs |
| Ideas.SetNamedKeepsNames | cogs/ideas.py:109-120 | the refresh keeps the set of field names |
| Ideas.SetNamedTwice | cogs/ideas.py:109-120 | refreshing a field twice is refreshing it once |
| Ideas.SetNamedCommute | cogs/ideas.py:109-120 | refreshing two different names commutes |
| Ideas.RefreshIdempotent | cogs/ideas.py:105-126 | the embed refresh is idempotent, so the reason field is never duplicated, and after a decision it is present |
| Ideas.SetNamedAppend | cogs/ideas.py:126 | a refresh leaves an appended field alone |
| Ideas.RefreshFields | cogs/ideas.py:105-126 | the refresh keeps every field's name in place and adds at most one field, none while the idea is pending |
| Ideas.StatusText | cogs/ideas.py:115-116 | the status field's text for an accepted or a rejected idea; `RefreshIdempotent` states its use |
| Ideas.HasField | cogs/ideas.py:124 | `any(field.name == name ...)`; `CountNamedPositive` relates it to the count of such fields |
| Ideas.IdeasCog.constructor | cogs/ideas.py:14-16 | the cog starts from the stored ideas |
| Ideas.IdeasCog.Suggest | cogs/ideas.py:48-91 | gives `SuggestStep` |
| Ideas.IdeasCog.Vote | cogs/ideas.py:173-202 | gives `VoteStep` |
| Ideas.IdeasCog.Decide | cogs/ideas.py:219-227 | found iff the idea exists; gives `DecideStep` |
| Utils.LeadingDigits | cogs/utils.py:123 | `\d+` takes the longest run of digits |
| Utils.MatchGroups | cogs/utils.py:123-124 | every captured group is a non-empty run of digits, and a day group is the start of the text followed by `d` |
| Utils.Seconds | cogs/utils.py:143 | the total is zero iff every component is, and each component's seconds are at most the total |
| Utils.UnitGroup | cogs/utils.py:123 | an optional group `(\d+)u` either captures its digits and consumes them with the unit, or consumes nothing |
| Utils.Parts | cogs/utils.py:157-161 | at most four parts, and none iff every component is zero |
| Utils.Part | cogs/utils.py:158-161 | a part is written iff its component is non-zero |
| Utils.Remind | cogs/utils.py:122-162 | a scheduled reminder has a total in 1..2592000 seconds |
| Utils.RemindLowered | cogs/utils.py:138-162 | the same bound for the lowered input |
| Utils.LeadingDigitsOf | cogs/utils.py:123 | the digit run stops at the first non-digit |
| Utils.UnitGroupOn | cogs/utils.py:123 | a rendered number followed by the unit is captured |
| Utils.UnitGroupEmpty | cogs/utils.py:123 | the empty string captures nothing |
| Utils.UnitGroupSkips | cogs/utils.py:123 | a number followed by another unit is not captured |
| Utils.ConcatPart | cogs/utils.py:158-161 | a part renders as its piece |
| Utils.ConcatParts | cogs/utils.py:157-161 | the compact form is the pieces in d, h, m, s order |
| Utils.ConcatAppend | cogs/utils.py:157-162 | concatenation distributes over appending |
| Utils.SkipLater | cogs/utils.py:123 | a group skips later units |
| Utils.TakePiece | cogs/utils.py:123 | a group takes its own piece |
| Utils.LowerCompact | cogs/utils.py:124 | the compact form is already lower case |
| Utils.Captured | cogs/utils.py:138-141 | `int(group or 0)` gives the component back |
| Utils.DaysGroup | cogs/utils.py:123 | the day group captures the days of a compact form |
| Utils.HoursGroup | cogs/utils.py:123 | the hour group captures the hours |
| Utils.MinutesGroup | cogs/utils.py:123 | the minute group captures the minutes |
| Utils.SecondsGroup | cogs/utils.py:123 | the second group captures the seconds |
| Utils.MatchCompact | cogs/utils.py:123-141 | matching the compact form captures exactly the non-zero components |
| Utils.ConcatCompactChars | cogs/utils.py:157-161 | the compact form holds only digits and unit letters |
| Utils.RemindCompact | cogs/utils.py:122-162 | for a compact duration: all zero is an invalid format; a total d*86400+h*3600+m*60+s above 30 days is too long; otherwise that total is scheduled, with the non-zero parts in d, h, m, s order joined by single spaces as the echo |
| Utils.RemindIgnoresCase | cogs/utils.py:124 | the input is lowered before matching |
| Utils.ReadableSplits | cogs/utils.py:162 | the readable echo splits back into its parts |
| Utils.OutOfOrderStops | cogs/utils.py:123-126 | minutes written before hours stop the match: `<m>m<h>h`, "5m2h" among them, schedules m minutes and echoes only them |
| Utils.ZeroIsNotPositive | cogs/utils.py:145-147 | "0s" is rejected as not positive |
| Utils.ThirtyDaysIsTheLimit | cogs/utils.py:149-154 | exactly 30 days is accepted, and one second more is rejected |
| Utils.RemindNeedsAGroup | cogs/utils.py:126 | input without any captured group is an invalid format |
| Utils.JoinAppend | cogs/utils.py:279 | joining a concatenation puts one separator between the halves |
| Utils.JoinThree | cogs/utils.py:279 | joining three words |
| Utils.MoreRolesWords | cogs/utils.py:279 | the tail text " и ещё N" |
| Utils.RolesValueWords | cogs/utils.py:279 | the field value is the shown roles, then " и ещё" and the rest's count |
| Utils.RolesValue | cogs/utils.py:279 | the roles field value; `RolesValueReadBack` states what it shows |
| Utils.NoSpaceInNumber | cogs/utils.py:279 | a rendered count holds no space |
| Utils.RolesValueReadBack | cogs/utils.py:275-281 | up to ten roles are all shown; beyond ten the first ten are shown, followed by "и", "ещё" and count-10 |
| Anonymous.StripPrefix | cogs/anonymous.py:54-57 | a present prefix is removed once, and an absent one changes nothing |
| Anonymous.StripAll | cogs/anonymous.py:54-57 | the scheme and `www.` prefixes stripped in order; `StripFullUrl` states the full strip |
| Anonymous.Host | cogs/anonymous.py:53-58 | the host holds no slash |
| Anonymous.EndsWithAnyIff | cogs/anonymous.py:60 | the list check is `any(domain.endswith(d) ...)` |
| Anonymous.Allowed | cogs/anonymous.py:49-62 | the whitelist test; `AllowedIff` states it as a suffix test |
| Anonymous.AllowedIff | cogs/anonymous.py:26-60 | a URL is allowed iff its host ends with one of the seven whitelisted domains |
| Anonymous.IsAllowedUrl | cogs/anonymous.py:49-62 | the loop answers exactly `Allowed` |
| Anonymous.AllowedIgnoresCase | cogs/anonymous.py:53 | the whitelist test is case-insensitive |
| Anonymous.LowerAppend | cogs/anonymous.py:53 | lowering distributes over concatenation |
| Anonymous.LowerOfLower | cogs/anonymous.py:53 | lowering lower-case text changes nothing |
| Anonymous.LowerFullUrl | cogs/anonymous.py:53 | lowering a full URL lowers its host and path |
| Anonymous.StripFullUrl | cogs/anonymous.py:54-57 | "https://www." is stripped in full |
| Anonymous.SplitAtFirstSlash | cogs/anonymous.py:58 | the host is the text before the first slash |
| Anonymous.HostOfFullUrl | cogs/anonymous.py:53-58 | the host of "https://www.host/path" is the lowered host |
| Anonymous.SuffixTestOnly | cogs/anonymous.py:60 | any host ending with a whitelisted domain passes, "notgithub.com" included |
| Anonymous.InviteFrom | cogs/anonymous.py:20-23 | an invite occurs at or after the position iff the scan says so |
| Anonymous.InviteAt | cogs/anonymous.py:20-23 | an invite starts at the position; `InviteFound` states which spellings match |
| Anonymous.HasInvite | cogs/anonymous.py:70 | `discord_invite_pattern.search` ignoring case; `InviteFound` and `FilterLinks` state it |
| Anonymous.InviteFound | cogs/anonymous.py:20-23 | an invite spelt with any word that lowers to "discord.", one of the four domains, a slash and a letter or digit is found anywhere in a message |
| Anonymous.InviteFoundIn | cogs/anonymous.py:20-23 | a message holds an invite when, after a word lowering to "discord.", the lowered text has the invite shape |
| Anonymous.UrlCharRun | cogs/anonymous.py:37-39 | the URL character run is maximal |
| Anonymous.IsUrlChar | cogs/anonymous.py:37-39 | the effective URL character class; `UrlCharRun` states the run is maximal |
| Anonymous.UrlAt | cogs/anonymous.py:37-39 | a URL match starts with "http://" or "https://" and is non-empty |
| Anonymous.Verdict | cogs/anonymous.py:74-76 | `replace_url`; `SubLink` and `FilterAtFirstUrl` state its use |
| Anonymous.SubFrom | cogs/anonymous.py:74-78 | `url_pattern.sub` from a position; `SubPlainChar`, `SubLink` and `SubSkipsPlainText` state it |
| Anonymous.FilterUrls | cogs/anonymous.py:74-78 | the substitution with `replace_url`; `NoSchemeUnchanged` and `FilterAtFirstUrl` state it |
| Anonymous.FilterLinks | cogs/anonymous.py:64-79 | the flag is set iff an invite occurs, and then the message is unchanged; otherwise every URL is filtered |
| Anonymous.SubPlainChar | cogs/anonymous.py:74-79 | a character that starts no URL is kept |
| Anonymous.SubLink | cogs/anonymous.py:74-79 | a URL is replaced by its verdict and the scan continues after it |
| Anonymous.SubSkipsPlainText | cogs/anonymous.py:74-79 | text before the next URL is kept verbatim |
| Anonymous.FilterAtFirstUrl | cogs/anonymous.py:74-79 | the first URL is judged and the text before it kept |
| Anonymous.NoSchemeUnchanged | cogs/anonymous.py:37-79 | text without "http(s)://" is unchanged |
| Anonymous.Anon | cogs/anonymous.py:86-124 | bot recipients are refused; an invite is refused; otherwise delivery iff the DM opens, with the filtered text |
| AiRewrite.TranscriptAppend | cogs/ai_rewrite.py:75-80 | the transcript of a concatenated history is the concatenation of transcripts |
| AiRewrite.Transcript | cogs/ai_rewrite.py:76-79 | the "role: content" lines of a history; `TranscriptAppend` and `TranscriptPair` state it |
| AiRewrite.FullPrompt | cogs/ai_rewrite.py:75-80 | the prompt starts with the transcript and ends with "user: " and the question |
| AiRewrite.NextPromptCarriesExchange | cogs/ai_rewrite.py:75-134 | after an exchange, the next prompt carries both new turns before the new question |
| AiRewrite.TranscriptPair | cogs/ai_rewrite.py:77-78 | two turns give two "role: content" lines |
| AiRewrite.BuildFullPrompt | cogs/ai_rewrite.py:75-80 | the accumulating loop gives exactly `FullPrompt` |
| AiRewrite.Messages | cogs/ai_rewrite.py:83-84 | the system prompt, then the history in order, then the new user message |
| AiRewrite.GroqAnswer | cogs/ai_rewrite.py:105-115 | an error reply iff an exception or a non-200 status; a 200 whose `choices` is empty, or whose content is `null`, raises, and only the `null` case raises after the history is extended; a missing content answers with the fallback text; otherwise the content is the answer |
| AiRewrite.GroqCrashPaths | cogs/ai_rewrite.py:105-134 | a 200 without choices raises with no reply and the history untouched; a 200 with `null` content raises with no reply after appending the user turn and a `None` turn |
| AiRewrite.PartsTextEmpty | cogs/ai_rewrite.py:120-124 | the collected text is empty iff every present part is empty |
| AiRewrite.CollectParts | cogs/ai_rewrite.py:120-124 | the loop collects exactly `PartsText` |
| AiRewrite.GoogleAnswer | cogs/ai_rewrite.py:117-127 | failure iff an exception; an answer is non-empty: the collected text when that is non-empty, and the placeholder text when the parts give none |
| AiRewrite.Chunks | cogs/ai_rewrite.py:137-141 | the chunks concatenate to the reply, each holds 1..2000 characters, and all but the last hold exactly 2000 |
| AiRewrite.ChunkAt | cogs/ai_rewrite.py:139-141 | chunk k is the slice starting at 2000k |
| AiRewrite.SplitReply | cogs/ai_rewrite.py:137-141 | a reply of at most 2000 characters is sent whole; longer replies are split into at least two chunks |
| AiRewrite.ChosenProvider | cogs/ai_rewrite.py:66-69 | an explicit provider wins; with neither it nor a preference there is none |
| AiRewrite.HistoryOf | cogs/ai_rewrite.py:72 | `self.history.get(user_id, [])`; `Conclude` states how it grows |
| AiRewrite.AnswerFrom | cogs/ai_rewrite.py:105-127 | only the Groq branch can raise |
| AiRewrite.Conclude | cogs/ai_rewrite.py:105-141 | a failure keeps history and replies with the error; a success appends the user turn then the assistant turn to this user's history only, and the replies concatenate to the answer; an exception gives no reply, and after a `null` content the history holds the user turn and a `None` assistant turn |
| AiRewrite.RequestFor | cogs/ai_rewrite.py:86-100 | Groq gets the messages and the model (the given one or the selected one); Google gets the full prompt |
| AiRewrite.FetchStep | cogs/ai_rewrite.py:62-141 | no provider gives "choose a provider" with history untouched; a request is sent iff the provider is groq or google; any other provider gets the single "invalid provider" reply with history untouched; an exception escapes only after a Groq request, and then nothing is replied |
| AiRewrite.FetchKeepsOrAppendsTwo | cogs/ai_rewrite.py:129-134 | history is unchanged, or grows by exactly the user turn and the answer turn for the caller, or, when the content was `null`, by the user turn and a `None` turn before the exception |
| AiRewrite.FailureKeepsHistory | cogs/ai_rewrite.py:102-113 | an unknown provider or an API error leaves history untouched |
| AiRewrite.AskStep | cogs/ai_rewrite.py:145-158 | a blocked user is refused before the preference is stored; otherwise the preference is stored, a request is sent iff the provider is groq or google, and whether an exception escaped is `FetchStep`'s |
| AiRewrite.BadProviderSticks | cogs/ai_rewrite.py:153 | an unknown provider is stored as the preference anyway |
| AiRewrite.SuggestMembers | cogs/ai_rewrite.py:180-185 | exactly the options containing the text, ignoring case, are suggested |
| AiRewrite.Suggest | cogs/ai_rewrite.py:180-185 | the suggestions are at most the options |
| AiRewrite.SuggestAppend | cogs/ai_rewrite.py:180-185 | the filter keeps the original order |
| AiRewrite.SuggestEverything | cogs/ai_rewrite.py:180-185 | empty text suggests every option |
| AiRewrite.ProviderChoices | cogs/ai_rewrite.py:177-185 | exactly the providers matching the text |
| AiRewrite.ModelChoices | cogs/ai_rewrite.py:188-195 | exactly the models matching the text |
| AiRewrite.RemoveAll | cogs/ai_rewrite.py:169 | removing the mention never lengthens the text, and text without it is unchanged |
| AiRewrite.MentionPrompt | cogs/ai_rewrite.py:169 | the prompt from a mention has no leading or trailing blank |
| AiRewrite.CallProvider | cogs/ai_rewrite.py:86-127 | sends `RequestFor` and returns `AnswerFrom` |
| AiRewrite.AiCog.constructor | cogs/ai_rewrite.py:26-56 | stripped prompt file or the default prompt; loaded block list or none; first model or the default one |
| AiRewrite.AiCog.FetchAiResponse | cogs/ai_rewrite.py:62-141 | gives `FetchStep`'s replies, request, history and escaped exception; nothing else changes |
| AiRewrite.AiCog.Conclusion | cogs/ai_rewrite.py:105-141 | gives `Conclude`'s replies, history and escaped exception; nothing else changes |
| AiRewrite.AiCog.AppendExchange | cogs/ai_rewrite.py:129-134 | appends the user turn and the given answer turn to this user's history only, creating it when absent |
| AiRewrite.AiCog.Ask | cogs/ai_rewrite.py:145-158 | gives `AskStep`, including whether an exception escaped |
| AiRewrite.AiCog.OnMessage | cogs/ai_rewrite.py:161-174 | the bot's own messages and unmentioned messages change nothing; any other mention, from another bot included, asks with the remembered preference, and an escaped exception sends no reply |
| AiRewrite.AiCog.BlockUser | cogs/ai_rewrite.py:199-211 | debug access only; appends only when absent |
| AiRewrite.AiCog.UnblockUser | cogs/ai_rewrite.py:215-227 | debug access only; removes only when present |
| Levels.GuildSettings | experimental/levels.py:20-33 | a missing guild gets the default document, which is stored; a present one is returned unchanged |
| Levels.Threshold | experimental/levels.py:46 | the XP needed to leave level L is 150L+100 |
| Levels.UserDataOf | experimental/levels.py:35-40 | a missing user starts at xp 0, level 0, `last_xp_time = now`, and is stored |
| Levels.LevelFor | experimental/levels.py:48-50 | the final level is at least the start, is below the next threshold, and every skipped threshold was reached |
| Levels.LevelUpIff | experimental/levels.py:57-58 | the level rises iff the XP reaches the current threshold |
| Levels.LevelForUnique | experimental/levels.py:48-50 | the loop's result is the only level with those bounds |
| Levels.AddXpMatchesFromScratch | experimental/levels.py:44-50 | continuing from the stored level gives the level computed from zero |
| Levels.LevelForMonotone | experimental/levels.py:48-50 | more XP never gives a lower level |
| Levels.FirstLevels | experimental/levels.py:46-50 | the thresholds 150L+100: 100 for level 1, 250 for level 2, 400 for level 3 |
| Levels.AddXpStep | experimental/levels.py:42-58 | stored XP grows by exactly the award, the level is `LevelFor` of the new total from the stored level, a notice is queued iff the level rose, and other users are untouched |
| Levels.RandInt | experimental/levels.py:154 | `randint` fails iff lo > hi, and otherwise lies in lo..hi inclusive |
| Levels.RandIntReachesAll | experimental/levels.py:154 | every value in the range can be drawn |
| Levels.OnMessageStep | experimental/levels.py:138-155 | bots and DMs are not counted; an award needs every gate passed, lies within the range, and is added to the author's XP; otherwise no user's XP changes |
| Levels.OnMessageOutcome | experimental/levels.py:138-155 | for a guild message from a non-bot, each of `KeyError`, disabled, ignored channel, cooling down and empty range happens exactly in its case; with every gate passed and a non-empty range, the drawn XP is awarded through `add_xp` |
| Levels.FirstMessageEarnsNothing | experimental/levels.py:38-152 | a new user's first message earns nothing while the cooldown is positive |
| Levels.SetXpRangeAsWritten | experimental/levels.py:83-89 | the upsert creates a range-only document for a new guild |
| Levels.SetXpRange | experimental/levels.py:83-89 | the range is set on a full document, the defaults when new, and healthy states stay healthy |
| Levels.ToggleStep | experimental/levels.py:111-120 | `KeyError` iff the document is range-only; otherwise `levels_enabled` flips |
| Levels.ToggleTwice | experimental/levels.py:111-120 | toggling twice restores the state |
| Levels.SetIgnoreChannelStep | experimental/levels.py:124-135 | `KeyError` iff range-only; otherwise the channel is added only when absent |
| Levels.IgnoreKeepsNoDup | experimental/levels.py:126-135 | the ignored list never gets a duplicate |
| Levels.IgnoredChannelEarnsNothing | experimental/levels.py:146-147 | a message in an ignored channel earns nothing |
| Levels.SetLevelRoleStep | experimental/levels.py:93-101 | `KeyError` iff range-only; otherwise the role is stored under `str(level)` |
| Levels.RoleForLevel | experimental/levels.py:70-74 | a role is given iff one is stored for the level and it is non-zero |
| Levels.LevelRoleGiven | experimental/levels.py:70-101 | after `setlevelrole` with a non-zero role, that level grants it |
| Levels.ResetLevelsStep | experimental/levels.py:105-107 | all users are deleted, and the settings are kept |
| Levels.LevelQuery | experimental/levels.py:77-79 | a stored user's XP and level, and (0, 0) for a new one |
| Levels.RangeFirstBreaksMessages | experimental/levels.py:83-152 | as written, a new guild whose first command is `set_xp_range` raises `KeyError` on every later message and on `toggle` |
| Levels.HealthyNeverRaises | experimental/levels.py:20-152 | with full settings documents, no message or command raises `KeyError` |
| Levels.LevelsCog.constructor | experimental/levels.py:9-15 | the cog starts from the given user and settings collections, with no pending notices |
| Levels.LevelsCog.GetGuildSettings | experimental/levels.py:20-33 | gives `GuildSettings` |
| Levels.LevelsCog.GetUserData | experimental/levels.py:35-40 | gives `UserDataOf` |
| Levels.LevelsCog.AddXp | experimental/levels.py:42-58 | the `while` loop gives `AddXpStep` |
| Levels.LevelsCog.OnMessage | experimental/levels.py:138-155 | gives `OnMessageStep` |
| Levels.LevelsCog.SetXpRangeCommand | experimental/levels.py:83-89 | gives the corrected `SetXpRange` |
| Levels.LevelsCog.SetLevelRole | experimental/levels.py:93-101 | gives `SetLevelRoleStep` |
| Levels.LevelsCog.ResetLevels | experimental/levels.py:105-107 | gives `ResetLevelsStep` |
| Levels.LevelsCog.ToggleLevels | experimental/levels.py:111-120 | gives `ToggleStep` |
| Levels.LevelsCog.SetIgnoreChannel | experimental/levels.py:124-135 | gives `SetIgnoreChannelStep` |
| Levels.LevelsCog.Level | experimental/levels.py:77-79 | gives `LevelQuery` |

## Left out

- I/O is not modelled. Each outside service is a parameter holding its answer, or is dropped:
  - Discord replies, embeds, views, modals and DMs;
  - Lavalink and wavelink, the Spotify API, Groq and Gemini HTTP;
  - MongoDB, JSON files and `asyncio.sleep`.
- `connect_to_nodes`, `skip`, `pause`, `nowplaying` (including its progress bar), `save` and `lyrics` in cogs/music.py are Lavalink or Discord calls with no state of their own.
- `get_track_info` in cogs/music.py only decorates the single-track embed, so it is not modelled.
- `previous_tracks` and `volume_levels` in cogs/music.py are never used.
- Music.ShuffleSeq: `random.shuffle` is Fisher–Yates driven by an arbitrary index oracle. The contract states a permutation, not a distribution.
- Levels.RandInt: `random.randint` is an arbitrary draw from a seed. Only the range is stated, not a distribution.
- Ideas.RatingOf: the rounded float average is not modelled. The rating is kept as a count and a total, and the empty case is the 0 rating.
- Utils.Remind: the reminder's delivery after the wait is I/O and is not modelled.
- AiRewrite.RemoveAll: `str.replace` for the bot mention is stated only by two facts: the text never grows, and text without the mention is unchanged. The left-to-right replacement order is not stated.
- Case folding, whitespace and digits are ASCII only, in `str.lower`, `strip` and `\d`. Whitespace is space, `\t` to `\r` and `\x1c` to `\x1f`, the ASCII characters Python's `str.isspace` accepts. Unicode spaces such as `\x85` and `\xa0`, and Unicode letters and digits, are not modelled.
- A Gemini response without candidates raises before the answer is read. The model treats that as an exception.
- The Google model name is not used by the Gemini request, so it is not modelled.
- Member and role lookup in `send_level_up_message` is not modelled. Only the choice of role for a level is (`Levels.RoleForLevel`).
- Music.BulkOnGuild: ends in the corrected `FinalNotice` for albums and playlists alike. The album branch as written is `MusicCatalog.AlbumFinalNoticeAsWritten`.
- Music.PlayConnected: inherits the corrected album notice from `BulkOnGuild`.
- Music.PlayStep: inherits the corrected album notice from `PlayConnected`.
- Music.RemoveStep: replies with the corrected `EditReplyIntended`, so a removed `(track, info)` pair is named instead of raising `AttributeError`. The queue change is the one the code makes.
- Music.MoveStep: replies with the corrected `EditReplyIntended` in the same way as `RemoveStep`.
- Music.MusicCog.BulkEnqueue: the album branch's final edit is the corrected `FinalNotice`, showing completion. As written, the album message keeps its loading or progress text (`MusicCatalog.AlbumFinalNoticeAsWritten`).
- Music.MusicCog.PlayOnConnected: the album branch ends with the corrected `FinalNotice`, as in `BulkEnqueue`. The as-written album message is not produced.
- Music.MusicCog.PlayCommand: inherits the corrected album notice from `PlayOnConnected`.
- Music.MusicCog.RemoveCommand: replies with the corrected `EditReplyIntended`. As written, removing a `(track, info)` pair pops it and then raises `AttributeError` with no reply (`MusicQueue.RemoveTupleReplyRaises`). The queue change is the same in both.
- Music.MusicCog.MoveCommand: replies with the corrected `EditReplyIntended`. As written, moving a `(track, info)` pair moves it and then raises with no reply. The queue change is the same in both.
- Levels.LevelsCog.SetXpRangeCommand: performs the corrected `SetXpRange`, which stores the default document with the new range for a new guild. As written, a new guild gets a document holding only the range (`Levels.SetXpRangeAsWritten`), and later messages raise `KeyError`.
- MusicQueue.Finish / MusicQueue.LoopTrackRepeats: a finished track stays `player.current`, so loop mode `track` replays it (cogs/music.py:540-541). The model assumes the audio backend keeps `current` set when the track-end event is handled, which the cog's code does not show. If the backend clears it, the `track` branch falls through to the `elif queue:` branch and drains the queue as `none` mode does (`MusicQueue.NoLoopDrains`). That case is not modelled.
- Timestamps are integers. `total_seconds()` is taken as whole seconds.
- The admin checks of cogs/reports.py and the debug-access check of cogs/ai_rewrite.py are boolean inputs.
- In cogs/ideas.py the administrator check guards the accept and reject buttons that open the decision form (lines 142-156). `Ideas.IdeasCog.Decide` models the form's submission, which only an administrator reaches, so it takes no such input.
- The `@commands.has_permissions(administrator=True)` decorators of experimental/levels.py sit on slash commands, to which discord.py does not attach `ext.commands` checks. The Levels commands are therefore modelled without a gate.
- The files outside the modelled cogs are not part of this model: main.py, cogs/help.py, cogs/activity.py, cogs/recruit.py and cogs/neuralmeduza.py.
  - The same goes for the currency, weather, ping, QR, hash and base64 commands of cogs/utils.py.

## Findings

| source | as written | input that shows it | evidently intended | confidence | as-written member | corrected member |
|---|---|---|---|---|---|---|
| cogs/music.py:194-200 | the album branch builds `final_embed` but edits the message with `embed` | an album whose three tracks are all found: the message still says "Загрузка 3 треков..." | `message.edit(embed=final_embed)`, as in the playlist branch at line 249 | high, not executed | MusicCatalog.AlbumFinalNoticeAsWritten | MusicCatalog.FinalNotice |
| cogs/music.py:407-427 | the reply reads `removed.title` / `track.title` on the popped entry, which is a `(track, info)` tuple for bulk-added entries | `remove 1` on a queue holding one album entry: the entry is popped, then the reply raises | the title of the entry's track | high, not executed | MusicQueue.EditReplyAsWritten | MusicQueue.EditReplyIntended |
| experimental/levels.py:83-89 | `set_xp_range` upserts a document holding only `xp_range` for a guild that has none | `set_xp_range 5 10` on a new guild, then any message: `settings["levels_enabled"]` raises `KeyError` | the default document with the new range | medium, not executed | Levels.SetXpRangeAsWritten | Levels.SetXpRange |
