# smoltunes, modelled in Dafny

smoltunes is a Discord music bot. It is built on serenity/poise (Discord) and lavalink-rs (the client of a Lavalink audio server). This project models the bot's own logic and proves properties of it. The Lavalink server and Discord itself are not modelled: they appear only as parameters and as a small stateful player.

What is modelled, one Dafny module per source file:

- **util** (`Util`): `format_millis` with its `[HH:]MM:SS` layout and read-back, the per-source emoji and colour tables, `enqueue_tracks` and `check_if_in_channel`.
- **track_loading** (`TrackLoading`):
  - the search-or-load decision of `load_or_search`, taken from the first whitespace-separated token;
  - `raise_for_load_type`, `load_direct`, `search_single`;
  - the per-engine fan-out of `search_multiple`.
- **player_controller** (`PlayerControl`):
  - the controller's "alone since" marker (`mark_alone`, `reset_alone`, `is_alone_for`) as a class;
  - the watchdog loop as a method, stated against a trace function and a final-state function, with time as an integer number of milliseconds and with other tasks deleting or re-creating the guild's player context between checks.
- **commands** (`Commands`), over a player whose queue is a sequence:
  - `play`: the query choice, the match on the loaded data, tagging with the requester, the append and the idle restart;
  - `queue`: the now-playing line and the nine-entry listing;
  - `swap`, with the failures of its Lavalink calls;
  - `search`: the groups per engine, the continuous numbering of results and buttons, and the selection by custom id;
  - `shuffle`: the Fisher–Yates shuffle of `slice::shuffle` (rand 0.9, from the first entry up) in place on an array, with the random draws as a parameter.
- **music_events** (`MusicEvents`):
  - the recovery run by the `track_exception` hook, as the ordered list of calls it makes on the player;
  - the event filter of `handle_voice_changes`.
- **status** (`Status`): the "now playing" embed with its placeholder and footer rules, and the queue embed with its padded numbers and fifteen-line truncation.
- **messages** (`Messages`):
  - `added_to_queue`;
  - `recovered_with_alternative` (star escaping, top three alternatives);
  - `search_results`, numbered straight across the groups;
  - `queue_message`, with its now-playing line and its listing lines as written.

Shared modules:

- `Wrappers`: `Option`, `Result`, and `Outcome`, which separates a returned value, an error raised through `?` and a panic.
- `Text`: decimal rendering, zero padding, `join` and `*` escaping, with parsers that read them back.
- `Seqs`: flattening of groups, and indexed maps.
- `Lavalink`: track data, load outcomes, engine prefixes, the `Player` class and the `Client` registry of player contexts.
- `Discord`: embeds, buttons and emojis as records.

Rust `usize` subtraction below zero panics in the debug build; the model follows that semantics (`Panicked`). Three behaviours of the code are worth stating up front:

- `swap` can leave the queue half-written: an `index2` of 0 panics after the first write. It also does not exchange the two entries (see Findings).
- The recovery does not decode track metadata and has no metadata fallback path. It stops, recovers with the given alternatives, and skips.
- The idle threshold is the ten seconds in the code.

## Model

| member | source | states |
|---|---|---|
| Lavalink.EngineQuery | src/track_loading.rs:63 | a search query is the engine's prefix followed by the term, which can be read back after the prefix |
| Lavalink.WithUserData | src/commands.rs:154-156 | the track gets exactly the new user data; its info and encoding stay as they were |
| Lavalink.DecodeRequester | src/util.rs:84-87 | user data decodes to a requester id exactly when it is a `{"requester_id": n}` object |
| Lavalink.Player.Count | src/commands.rs:579 | the count is the queue's length |
| Lavalink.Player.GetTrack | src/commands.rs:590-591 | an entry is returned exactly for an index inside the queue, and it is the entry at that index |
| Lavalink.Player.Append | src/commands.rs:158-159 | the tracks go to the tail in order; nothing else changes |
| Lavalink.Player.PushToBack | src/commands.rs:374 | the track becomes the last entry; nothing else changes |
| Lavalink.Player.PushToFront | src/music_events.rs:95 | when it goes through, the track becomes the head; when it fails, the queue is unchanged |
| Lavalink.Player.Swap | src/commands.rs:593-594 | the slot at the index is overwritten with the track; out of range, nothing happens |
| Lavalink.Player.Replace | src/commands.rs:536 | the queue becomes the given sequence; the current track and position stay |
| Lavalink.Player.StopNow | src/music_events.rs:53 | a successful stop leaves nothing playing at position 0 and the queue untouched; a failed one changes nothing |
| Lavalink.Player.Skip | src/music_events.rs:62-63 | a successful skip plays the queue head and removes it, or plays nothing on an empty queue; a failed one changes nothing |
| Lavalink.Client.Leave | src/player_controller.rs:88-90 | the guild's player context is removed; other guilds keep theirs |
| Lavalink.Client.CreatePlayer | src/player_controller.rs:43-46 | the guild gets a new, empty player context; other guilds keep theirs |
| Text.NatToStringLength | src/status.rs:100-108 | a decimal number has one digit below 10, two below 100, and at least three from 100 on |
| Text.ParseNatToString | src/commands.rs:330-368 | the decimal text of a number is all digits and parses back to that number (the button id written by `to_string` and read by `parse`) |
| Text.PadLeft | src/status.rs:108 | `{:0>w}` pads to the width, and never shortens |
| Text.PadLeftShape | src/status.rs:108 | the padded text is zeros followed by the original text |
| Text.ParsePadLeft | src/status.rs:108 | a zero-padded number is all digits and parses back to the number |
| Text.EscapeStars | src/messages.rs:37-38 | escaping never shortens the text |
| Text.EscapeStarsEscapes | src/messages.rs:37-38 | after `replace("*", "\\*")` every `*` is preceded by a backslash |
| Text.UnescapeEscapeStars | src/messages.rs:37-38 | unescaping an escaped text gives back the original |
| Seqs.FlattenAt | src/commands.rs:365-369 | member `j` of group `g` sits at the group's offset plus `j` in `iter().flatten()` |
| Seqs.OffsetNext | src/commands.rs:325-336 | the running index grows by each group's size |
| Seqs.RowsFlatten | src/commands.rs:324-340 | read row by row, the rows built across groups are the flattened groups mapped with indexes running from 0 |
| Util.FormatMillis | src/util.rs:115-127 | modelled as written; its shape and read-back are the contracts of Util.FormatMillisShort and Util.FormatMillisRoundTrip |
| Util.ClockComponents | src/util.rs:115-118 | minutes and seconds are below 60; hours, minutes and seconds add up to the whole seconds; hours are positive exactly from one hour on |
| Util.Pad2Length | src/util.rs:120-126 | a field below 100 is two digits once padded |
| Util.FormatMillisShort | src/util.rs:115-127 | the text is `MM:SS` (5 characters) exactly below an hour, `HH:MM:SS` otherwise |
| Util.FormatMillisRoundTrip | src/util.rs:115-127 | the text has the clock shape and reads back as the whole seconds of the duration |
| Util.SourceToEmoji | src/util.rs:129-141 | a known source gets the emoji of its own name; every other source gets the fallback emoji |
| Util.SourceToColor | src/util.rs:143-155 | each known source gets its colour and every other source the fallback; all are 24-bit |
| Util.SourceColorIdentifies | src/util.rs:143-155 | no two sources, and neither the fallback, share the colour of a known source |
| Util.SourceEmojiIdentifies | src/util.rs:129-141 | no other source shares the emoji of a known source |
| Util.EnqueueTracks | src/util.rs:97-113 | on success the old queue followed by every track tagged with the requester, in order; a failing serialisation of a non-empty list leaves the queue untouched |
| Util.CheckIfInChannel | src/util.rs:157-162 | the guild's player context when it has one; the "Not in a voice channel!" error exactly when it does not |
| TrackLoading.FirstToken | src/track_loading.rs:13 | the first token is non-empty and has no whitespace |
| TrackLoading.FirstTokenPlace | src/track_loading.rs:13 | the first token follows leading whitespace only and ends at whitespace or at the end |
| TrackLoading.RaiseForLoadType | src/track_loading.rs:73-88 | an error-typed answer bails with its error, or panics when it carries none; every other answer gives its data |
| TrackLoading.SearchSingle | src/track_loading.rs:56-71 | transport errors and load errors pass through; no data gives no results; search data gives its results; any other data is `NotSearchResults` |
| TrackLoading.SearchMultiple | src/track_loading.rs:37-54 | one slot per engine, in engine order, each holding that engine's own search result; it panics exactly when one engine's search panics |
| TrackLoading.WellFormedSearchesDoNotPanic | src/track_loading.rs:37-54 | when every answer that arrives attaches its error, the fan-out never panics |
| TrackLoading.LoadDirect | src/track_loading.rs:27-34 | the query goes to the server as it is, through `raise_for_load_type` |
| TrackLoading.IsSearchQuery | src/track_loading.rs:13-16 | modelled as written; which queries it excludes is the contract of TrackLoading.KnownPrefixesLoadDirectly and TrackLoading.UnprefixedQueriesLoadDirectly |
| TrackLoading.LoadOrSearch | src/track_loading.rs:8-25 | in terms of what the server answers: a query without a token panics; a search query is answered by the YouTube search, always as search results (none without data, `NotSearchResults` for other data); any other query is the server's own answer, which must carry data ("No matches for identifier" otherwise); transport errors pass through, and an error answer panics exactly when it carries no error data |
| TrackLoading.SearchQueryYieldsSearch | src/track_loading.rs:17-19 | a searched query only ever yields search results |
| TrackLoading.DirectLoadWithoutDataFails | src/track_loading.rs:20-24 | a direct load without data fails with "No matches for identifier" |
| TrackLoading.KnownPrefixesLoadDirectly | src/track_loading.rs:14-15 | queries starting with `http` or `mix:` are never searched |
| TrackLoading.UnprefixedQueriesLoadDirectly | src/track_loading.rs:13-15 | a query with no colon is never searched |
| PlayerControl.Marked | src/player_controller.rs:50-56 | after marking, a marker is set, and an existing one is kept |
| PlayerControl.MarkKeepsFirst | src/player_controller.rs:50-56 | a second mark keeps the first timestamp |
| PlayerControl.PlayerController.MarkAlone | src/player_controller.rs:50-56 | the marker becomes the marked value of the old one at `now` |
| PlayerControl.PlayerController.ResetAlone | src/player_controller.rs:58-61 | the marker is cleared whatever it was |
| PlayerControl.PlayerController.IsAloneFor | src/player_controller.rs:63-67 | false without a marker; otherwise true exactly when `now - marker` strictly exceeds the delta |
| PlayerControl.Decide | src/player_controller.rs:85-93 | company means reset; leaving needs a marker strictly older than the threshold; alone past the threshold always leaves |
| PlayerControl.NextMarker | src/player_controller.rs:85-93 | a reset clears the marker and a mark leaves one set |
| PlayerControl.ApplyChange | src/player_controller.rs:78-80 | a context exists at the check exactly as the other tasks' change leaves it; other guilds are untouched |
| PlayerControl.Check | src/player_controller.rs:82-93 | one pass takes the action of the decision rule, leaves the marker the rule gives, and keeps a player context exactly when it does not leave |
| PlayerControl.PlayerWatchdog | src/player_controller.rs:73-97 | the checks made are the trace of the decision rule from the first check on; afterwards whether the guild has a player context and the controller's marker are the final state of that trace; no other guild's player context is touched |
| PlayerControl.TraceTimes | src/player_controller.rs:75-95 | check `k` happens `k` three-second intervals after the first check, which comes ten seconds after the start |
| PlayerControl.TraceEnds | src/player_controller.rs:78-90 | only the last pass breaks the loop, and a leave is followed by that exit unless another task has created a new player context meanwhile |
| PlayerControl.AtMostOneLeave | src/player_controller.rs:78-90 | when no other task re-creates the player context, `leave` happens at most once |
| PlayerControl.RejoinedAloneLeavesAtOnce | src/player_controller.rs:78-93 | after its own leave, a watchdog whose guild gets a new player context keeps its old marker and, alone at the next check, leaves again at once |
| PlayerControl.FinalState | src/player_controller.rs:77-96 | the guild keeps a player context at the end exactly when the last pass acted without leaving; a last reset leaves no marker, a last mark leaves one |
| PlayerControl.NoEarlyLeave | src/player_controller.rs:87-93 | no check within the threshold of the marker leaves |
| PlayerControl.FirstFourChecksNeverLeave | src/player_controller.rs:85-95 | starting unmarked, none of the first four checks leaves |
| PlayerControl.AloneLeavesAtFifthCheck | src/player_controller.rs:73-97 | alone from the start and with no other task deleting the context, the bot marks four times, leaves at the fifth check, then exits unless the context is re-created |
| PlayerControl.CompanyResets | src/player_controller.rs:85-86 | with more than one member the marker is reset and no leave happens |
| Messages.AddedToQueue | src/messages.rs:9-25 | modelled as written; its fields are the contract of Messages.AddedToQueueShowsTrack and Messages.AddedToQueueIgnoresUserData |
| Messages.AddedToQueueShowsTrack | src/messages.rs:9-25 | the announcement has the track's title and author, "Added to queue", the source's emoji (named after a known source), a 24-bit colour, the track's link and artwork |
| Messages.AddedToQueueIgnoresUserData | src/messages.rs:9-25 | the announcement is the same whatever user data the track carries |
| Messages.RecoveredWithAlternative | src/messages.rs:26-64 | modelled as written; its fields are the contracts of Messages.RecoveredListsTopThree, Messages.RecoveredIgnoresTail and Messages.RecoveredEscapesBest |
| Messages.FoldIsConcatenation | src/messages.rs:50-61 | the fold over the alternatives is the start text followed by one line per alternative |
| Messages.RecoveredListsTopThree | src/messages.rs:40-63 | the embed has the two fields, and the second lists exactly the first `min(3, n)` alternatives |
| Messages.RecoveredIgnoresTail | src/messages.rs:50-52 | alternatives after the third never change the embed |
| Messages.RecoveredEscapesBest | src/messages.rs:31-39 | the description starts with the header and ends with the best alternative's author and title, escaped so that every `*` is escaped, and each reads back |
| Messages.GroupLineAt | src/messages.rs:70-81 | entry `j` of a group numbered from `first` carries the number `first + j` |
| Messages.WriteEntry | src/messages.rs:71-78 | the line written is the group's entry `j` |
| Messages.WriteGroup | src/messages.rs:70-81 | the inner loop appends the group's numbered entries to the text |
| Messages.SearchResults | src/messages.rs:66-86 | the description is every group's entries followed by a line break per group, numbered on from the groups before |
| Messages.SearchNumbering | src/messages.rs:68-81 | the entry of result `j` in group `g` shows that result with the number `k + 1`, where `k` is its place in the flattened results |
| Messages.SearchNumberingContinues | src/messages.rs:68-83 | numbering starts at 1, and each group goes on where the previous one stopped |
| Messages.MinutesBelowHundred | src/messages.rs:122-124 | whole minutes stay below 100 exactly for positions below 100 minutes |
| Messages.PlayClockReadsBack | src/messages.rs:122-124 | `{:02}:{:02}` reads back as the whole seconds, and is exactly `MM:SS` below 100 minutes |
| Messages.QueueLine | src/messages.rs:97-115 | as written: a listing line starts with its number and `" -> "`, and ends with `<@!id>` when the track has a URI and with `<@!id` when it has none |
| Messages.QueueLineUnclosed | src/messages.rs:107-114 | as written, a line without a URI ends with `<@!id`, and no `>` closes it |
| Messages.QueueLineFixed | src/messages.rs:97-115 | corrected: a listing line starts with its number and ends with a closed mention `<@!id>`; for a track with a URI it is the line as written |
| Messages.ListingLines | src/messages.rs:92-116 | one line per listed entry, as written |
| Messages.ListingLineAt | src/messages.rs:94-116 | listing line `k` is the as-written line numbered `first + k` for entry `k` and its requester |
| Messages.ListingAsWritten | src/messages.rs:92-116 | at most nine lines; line `k` is numbered `k + 1` and ends with entry `k`'s requester mention, closed only when the entry has a URI |
| Messages.FixedListing | src/messages.rs:92-116 | corrected: one line per listed entry |
| Messages.FixedListingAt | src/messages.rs:94-116 | corrected listing line `k` is the corrected line numbered `first + k` for entry `k` |
| Messages.ListingsAgreeWithUris | src/messages.rs:97-106 | when every listed entry has a URI, the listing as written and the corrected listing are the same |
| Messages.NowPlayingLine | src/messages.rs:121-143 | the line starts with "Now playing: " and ends with the position clock and the closed mention of the requester |
| Messages.Compose | src/messages.rs:148 | the message starts with the now-playing line and ends with a blank line followed by the listing lines |
| Messages.QueueMessage | src/messages.rs:88-149 | errors from fetching the player and the count pass through; an entry whose data does not decode panics; a current track whose data does not decode raises the user-data error; otherwise the text starts with the now-playing line (or "Now playing: nothing") and ends with a blank line and the as-written listing of the first `min(n, 9)` entries |
| Messages.ListingNumbered | src/messages.rs:92-116 | corrected: at most nine lines, line `k` numbered `k + 1` and ending with entry `k`'s closed requester mention |
| Messages.QueueMessageIgnoresTail | src/messages.rs:92-96 | entries after the ninth never change the message |
| Status.Footer | src/status.rs:70-77 | a footer exactly when the user data decodes and the requester is cached; it then reads "Requested by NAME" with the avatar |
| Status.PlayerEmbed | src/status.rs:41-96 | nothing playing: the John Cage 4'33" placeholder, the shushing-face icon, no link, an empty thumbnail and no footer; playing: the track's title, author, emoji, colour, link and artwork; the footer rule as above |
| Status.PlayerProgress | src/status.rs:64-68 | the description is position " / " length, each a clock that reads back as its whole seconds; the placeholder lasts zero seconds |
| Status.StatusLine | src/status.rs:108-115 | modelled as written; its numbering is the contract of Status.StatusLineAt and Status.NumberAligned |
| Status.StatusLineAt | src/status.rs:102-118 | line `k` shows entry `k` with the number `k + 1` at the queue's width |
| Status.Shown | src/status.rs:120-125 | up to fifteen entries keep their lines; beyond that the first fifteen are kept, plus "*... n more*" with `n = len - 15` |
| Status.QueueEmbed | src/status.rs:98-134 | a failing count panics; otherwise the "Queue" embed holds the shown lines joined, or "-# The queue is empty" for an empty queue |
| Status.NumberAligned | src/status.rs:100-108 | padded numbers are digits that read back; up to 99 entries they fill the width exactly; three-digit numbers overflow it |
| Commands.PlayQuery | src/commands.rs:107-112 | a term starting with `http` is used as it is; any other term becomes a YouTube search for it |
| Commands.PickTracks | src/commands.rs:131-143 | a single track, the first search result (an empty result list panics), or every playlist track with the playlist; nothing for any other answer |
| Commands.TagTracks | src/commands.rs:154-156 | every track gets the requester as user data and keeps its info, in order |
| Commands.TaggedAll | src/commands.rs:154-156 | each track tagged in its place |
| Commands.Play | src/commands.rs:90-173 | without a term, only an idle player is restarted by a skip, and a failing `get_player` or `get_track(0)` counts as not idle ("The queue is empty." for the latter); with one, an error or panic leaves the player untouched; otherwise the tagged tracks are appended after the old queue, an idle player that was already connected is skipped forward (unless `get_player` or `get_track(0)` fails), one that has just joined is left alone, and the reply announces the playlist or the track |
| Commands.RequesterField | src/commands.rs:237-245 | the displayed requester field is the id, or `null` for data without that key |
| Commands.FieldListing | src/commands.rs:224-251 | one as-written line per listed entry, with the displayed requester field as the mention |
| Commands.FieldListingAt | src/commands.rs:229-248 | listing line `k` is the as-written line numbered `first + k` for entry `k` and its requester field |
| Commands.QueueCommand | src/commands.rs:211-284 | errors pass through; it panics exactly when a listed entry or the current track has no user data; otherwise the text starts with the now-playing line (or "Now playing: nothing") and ends with the as-written listing of the first `min(n, 9)` entries |
| Commands.QueueCommandNumbered | src/commands.rs:224-251 | at most nine lines; line `k` is numbered `k + 1` and ends with `<@!field`, closed by `>` only when the entry has a URI |
| Commands.Exchange | src/commands.rs:590-594 | the evident intent of the swap: the two slots trade entries, and every other slot keeps its entry |
| Commands.SwapAsWritten | src/commands.rs:578-599 | as written: out-of-range indexes get the maximum, equal ones are refused, both without a change; `index1 < 2` panics before any write; `index2 = 0` panics after the first write, leaving `q[index1-2]` in slot `index1-1`; a swap writes `q[index1-2]` into slot `index1-1` and `q[index1-1]` into slot `index2-1` |
| Commands.SwapAsWrittenLosesTrack | src/commands.rs:590-594 | swapping 3 and 1 in `[a, b, c]` gives `[c, b, b]`: a track is lost and another doubled |
| Commands.SwapAsWrittenExchangesOnlyByChance | src/commands.rs:590-594 | the written swap is an exchange exactly when the entry before `index1` equals the one at `index2` |
| Commands.SwapFixed | src/commands.rs:578-599 | out-of-range and equal indexes are refused without a change; a swap happens exactly for two distinct indexes in range, and it is the exchange |
| Commands.SwapFixedPermutes | src/commands.rs:590-594 | the corrected swap keeps the length and the multiset of tracks |
| Commands.SwapFixedInvolution | src/commands.rs:590-594 | swapping the same pair twice gives the queue back |
| Commands.SwapCommand | src/commands.rs:564-599 | as written, on the player: with no failing call, the reply and the new queue are those of `SwapAsWritten`; out-of-range and equal indexes are answered without a change; `index1 = 0` panics before the first read and `index1 = 1` before the second; a failing count, read or first write raises without a change; `index2 = 0` panics, and a failing second write raises, with only the first write done (`q[index1-2]` in slot `index1-1`) |
| Commands.SwapCommandFixed | src/commands.rs:564-599 | corrected, on the player: the reply and the new queue are those of `SwapFixed`; a failing count, track fetch or first write raises without a change; a failing second write raises with only the first write done (`q[index2-1]` in slot `index1-1`) |
| Commands.SearchQueries | src/commands.rs:302-309 | one query per engine, YouTube, Deezer and SoundCloud in that order |
| Commands.GroupOf | src/commands.rs:315-321 | a kept answer gives its first three search results, and nothing for data that is not a search |
| Commands.SearchGroups | src/commands.rs:311-322 | failed and data-less answers are dropped; each group has at most three tracks; every kept answer gives the group at its place among the kept ones, so the groups keep the answers' order |
| Commands.KeptCountOfPrefixes | src/commands.rs:311-322 | counting the kept answers among the first `k` splits into the first answer and the rest |
| Commands.RowButtons | src/commands.rs:327-336 | the buttons of a group carry the running index |
| Commands.SearchButtons | src/commands.rs:324-340 | one row per group that has results, with the index running across groups |
| Commands.SelectedTrack | src/commands.rs:365-369 | the custom id selects a track exactly when it is a number inside the flattened results, and then selects that place |
| Commands.ButtonAt | src/commands.rs:324-340 | button `k`, counted across rows, is the button for flattened result `k` |
| Commands.PressedButtonSelects | src/commands.rs:324-369 | pressing the button of result `j` in group `g` selects exactly that track; its label and the number shown in the results text are the same `k + 1` |
| Commands.SearchCommand | src/commands.rs:288-377 | the shown embed and rows follow from the three searches; with no press the queue is unchanged; a bad id panics without a change; a press appends the selected track |
| Commands.SwapAt | src/commands.rs:534 | one exchange of the shuffle keeps the length |
| Commands.SwapAtPermutes | src/commands.rs:534 | one exchange keeps the multiset |
| Commands.Draw | src/commands.rs:533-534 | step `k` draws an index among the first `k + 1` |
| Commands.ShuffleFromPermutes | src/commands.rs:534 | the exchanges from step `i` up keep length and multiset |
| Commands.ShuffledPermutes | src/commands.rs:526-536 | whatever is drawn, the shuffled queue has the same length and the same tracks, each as often |
| Commands.Shuffle | src/commands.rs:533-535 | the array, exchanged from the first entry up, ends as the shuffle for the drawn numbers, a permutation of what it held |
| Commands.ShuffleCommand | src/commands.rs:516-541 | errors leave the queue untouched; otherwise the queue becomes its shuffle, a permutation of it, and the reply is "Queue shuffled" |
| MusicEvents.FailureEmbed | src/music_events.rs:103-110 | the notice has the author "Error during Playback", gold colour, "author - title" as its title, and the severity and the cause in its description |
| MusicEvents.StopComesFirst | src/music_events.rs:53-56 | the first call is always the stop, nothing stops again later, and a failed stop ends the hook with nothing else done |
| MusicEvents.SkipAlwaysAttempted | src/music_events.rs:58-65 | after a successful stop the skip is the last call, made whatever the recovery's result; only the missing controller data, which panics, prevents it |
| MusicEvents.PushesBestBeforeSending | src/music_events.rs:91-99 | with alternatives, exactly the best one is pushed, second after the stop and before any send; a failed push sends nothing |
| MusicEvents.NoAlternativeOnlyNotifies | src/music_events.rs:103-116 | with no alternative: stop, one failure notice, skip; no push happens |
| MusicEvents.FailedSendKeepsPush | src/music_events.rs:95-99 | the player ends the same whether the message got through or not |
| MusicEvents.BestPlaysNext | src/music_events.rs:58-100 | when every call succeeds, the best alternative plays and the queue is as it was |
| MusicEvents.TrackExceptionHook | src/music_events.rs:44-66 | on the player, the calls, the panic flag and the new state are those of the recovery rule; no player context panics before anything |
| MusicEvents.TrackException | src/music_events.rs:44-66 | modelled as written; its call order is the contract of MusicEvents.StopComesFirst and MusicEvents.SkipAlwaysAttempted |
| MusicEvents.Recover | src/music_events.rs:68-117 | modelled as written; its calls are the contract of MusicEvents.PushesBestBeforeSending, MusicEvents.NoAlternativeOnlyNotifies and MusicEvents.FailedSendKeepsPush |
| MusicEvents.RecoverOn | src/music_events.rs:68-117 | the recovery step on the player matches the recovery rule |
| MusicEvents.Forward | src/music_events.rs:129-160 | an event is forwarded exactly when it has a guild and is not another user's voice state; the bot's state and every server update are forwarded unchanged |
| MusicEvents.HandleVoiceChanges | src/music_events.rs:124-177 | ignored events do nothing and return Ok; forwarded ones fetch the guild's connection, and update the player only when that fetch works, with the update's own error passed on |
| MusicEvents.VoiceIgnores | src/music_events.rs:137-139 | other users' voice states and events without a guild change nothing and never fail |
| MusicEvents.VoiceUpdatesOwnGuild | src/music_events.rs:129-174 | only the guild named in the event is ever updated |

## Left out

- The alternative-track matcher and the search cache (`find_alternative_tracks`). They are not in the source files; the recovery takes the alternatives, best first, as an input.
- Scores are `f32` shown as `{:07.3}`; the model carries each score as its already-formatted text.
- `rand::rng()`: the random draws of the shuffle are a parameter `pick`. Any permutation the draws make is covered.
- Concurrency: the `Mutex` around the marker, `tokio::spawn`, the sleeps, `join_all`. These are modelled sequentially, with the sleeps as fixed time steps.
- The `debug!` fetches in `_track_exception` run only when debug logging is on; they are the single `inspectFails` fault.
- `leave` and `get_own_voice_channel` are not part of this model. The watchdog's observations arrive as `TickEnv` values.
- PlayerControl.PlayerWatchdog: the `unwrap`s of the channel lookup, of the member list and of `leave` are not modelled as panics. A re-created player context is a fresh, empty one; the new controller and the second watchdog that come with it are not modelled.
- Embed URLs, emojis shown as images, button styles, message sending and deleting, and the sixty-second interaction wait. The pressed button comes in as its custom id, or as `None` for the timeout.
- Emoji ids are kept as the decimal text of their snowflakes, the form the source parses them from.
- src/main.rs (framework, Lavalink node setup, logging), src/music_advanced.rs and src/music_basic.rs (older copies of the commands, not declared as modules).
- The `raw` and `ready` hooks: logging and bulk deletion only.
- `_join` and `PlayerController::init`: voice gateway and Lavalink I/O. `play` receives whether it just joined as `hasJoined`.
- The other commands (`join`, `leave`, `skip`, `pause`, `resume`, `stop`, `seek`, `remove`, `clear`): single calls into lavalink-rs with no logic of their own.
- The "Join the bot to a voice channel first." reply for a missing player context in the commands. The command models start with the player in hand.
- TrackLoading.SearchSingle: `to_query` is taken as infallible; its `?` is not modelled.
- Commands.SearchQueries: `to_query` is taken as infallible; its `unwrap` is not modelled as a panic.
- Commands.SwapCommand: the `unwrap`s after `get_track` cannot fail once the indexes are checked, except for `index1 = 1`, whose `index1 - 2` panics in the debug build and, wrapped in a release build, reaches `get_track(usize::MAX)` and panics at the `unwrap`; the model gives `Panicked` for it either way.
- Commands.Play: `to_query` is taken as infallible for the three engines; the load report is modelled as the loaded data, not its `Debug` text; a failing `append` is not modelled.
- Commands.SearchCommand: failures while sending or deleting messages, and of `push_to_back`, are not modelled.
- Util.EnqueueTracks: a failing `append` is not modelled.
- Release builds wrap `usize` subtraction instead of panicking; the model follows the debug build.
- Text.ParseNatToString: `parse::<usize>` also accepts a leading `+` and rejects values past `usize::MAX`; the model reads plain digit strings of any length.
- src/status.rs: `StatusBuilder::new` (the `PlayerData` lookup, the guild and member fetch) is left out. The embeds take the current track, position, member name and cached users as inputs.
- The `search` command pushes the selected track without requester user data, so a later `queue` command panics on it. The model states both behaviours separately and does not connect them.
- JSON user data is narrowed to the requester object or "anything else".

## Findings

| source | as written | input that shows it | evidently intended | confidence | as-written member | corrected member |
|---|---|---|---|---|---|---|
| src/commands.rs:590-594 | `swap` reads the second track at `index1 - 2` instead of `index2 - 1`, so it copies the entry before `index1` into slot `index1 - 1` | queue `[a, b, c]`, `swap 3 1` leaves `[c, b, b]`: `a` is lost, `b` doubled | the two entries trade places and the queue stays a permutation | high (not executed) | Commands.SwapAsWritten, Commands.SwapAsWrittenLosesTrack, Commands.SwapCommand | Commands.SwapFixed, Commands.SwapFixedPermutes, Commands.SwapCommandFixed |
| src/messages.rs:107-114 | a listing line for a track without a URI ends in `<@!{}`, leaving the user mention unclosed (the same at src/commands.rs:240-246) | any queued track whose `uri` is `None` | `<@!{}>`, as in the branch with a URI and in the now-playing line | high (not executed) | Messages.QueueLine, Messages.ListingAsWritten | Messages.QueueLineFixed, Messages.ListingNumbered |
