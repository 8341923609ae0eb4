/**
 * src/messages.rs: the "added to queue" and "recovered with an alternative"
 * embeds, the numbered search-results embed and the text queue listing.
 */
module Messages {
  import opened Wrappers
  import opened Text
  import opened Lavalink
  import opened Util
  import opened Discord
  import opened Seqs

  function Min(a: nat, b: nat): nat { if a <= b then a else b }

  /** `added_to_queue`: title, author with the source's emoji, the source colour, link and artwork. */
  function AddedToQueue(t: Track): Embed {
    EmptyEmbed.(
      title := Some(t.info.title),
      description := Some("Added to queue"),
      author := Some(EmbedAuthor(t.info.author, EmojiImage(SourceToEmoji(t.info.sourceName)))),
      color := Some(SourceToColor(t.info.sourceName)),
      url := t.info.uri,
      image := t.info.artworkUrl)
  }

  /**
   * The announcement names the track and tells its source: an emoji of the
   * source's own name for a known source, and a 24-bit colour.
   */
  lemma AddedToQueueShowsTrack(t: Track)
    ensures var e := AddedToQueue(t);
            && e.title == Some(t.info.title) && e.description == Some("Added to queue")
            && e.author.Some? && e.author.value.name == t.info.author && e.author.value.icon.EmojiImage?
            && (IsKnownSource(t.info.sourceName) ==> e.author.value.icon.emoji.name == t.info.sourceName)
            && e.color.Some? && e.color.value < 0x100_0000
            && e.url == t.info.uri && e.image == t.info.artworkUrl
  {
  }

  /** `play` announces the tracks before tagging them: the user data never shows in the announcement. */
  lemma AddedToQueueIgnoresUserData(t: Track, data: Json)
    ensures AddedToQueue(WithUserData(t, data)) == AddedToQueue(t)
  {
  }

  // ---------------------------------------------------------------- recovered_with_alternative

  /**
   * A candidate replacement track with its score. The score is an `f32` shown
   * as `{:07.3}`; the model carries that rendering as text.
   */
  datatype Alternative = Alternative(scoreText: string, track: Track)

  const RecoveryHeader := "Error during playback, using alternative track:\n ** "

  /** The description line naming the best alternative, its author and title escaped for Markdown. */
  function BestLine(best: TrackInfo): string {
    RecoveryHeader + BestSummary(best) + EscapedCredit(best)
  }

  function BestSummary(best: TrackInfo): string {
    EmojiText(SourceToEmoji(best.sourceName)) + " [" + FormatMillis(best.length) + "] "
  }

  /** `author - title**` with each `*` of author and title escaped. */
  function EscapedCredit(best: TrackInfo): string {
    EscapeStars(best.author) + " - " + EscapeStars(best.title) + "**"
  }

  function CauseText(track: Track, error: TrackError): string {
    "```identifier: " + track.info.identifier + "\nmessage: " + error.message + "\ncause: " + error.cause + "```"
  }

  /** What the fold adds for one alternative: a line break, then the line. */
  function AlternativeLine(a: Alternative): string {
    "\n" + a.scoreText + " [" + FormatMillis(a.track.info.length) + "] " + a.track.info.author + " - " + a.track.info.title
  }

  /** The fold over the listed alternatives, as the source writes it: accumulate from the left. */
  function FoldAlternatives(acc: string, alternatives: seq<Alternative>): string
    decreases |alternatives|
  {
    if alternatives == [] then acc
    else FoldAlternatives(acc + AlternativeLine(alternatives[0]), alternatives[1..])
  }

  /** The lines of the given alternatives, one after another. */
  function AlternativeLines(alternatives: seq<Alternative>): string
    decreases |alternatives|
  {
    if alternatives == [] then "" else AlternativeLine(alternatives[0]) + AlternativeLines(alternatives[1..])
  }

  /** The fold is the initial text followed by every alternative's line, in order. */
  lemma {:induction false} FoldIsConcatenation(acc: string, alternatives: seq<Alternative>)
    ensures FoldAlternatives(acc, alternatives) == acc + AlternativeLines(alternatives)
    decreases |alternatives|
  {
    if alternatives != [] {
      FoldIsConcatenation(acc + AlternativeLine(alternatives[0]), alternatives[1..]);
    }
  }

  /**
   * `recovered_with_alternative`: the "added to queue" embed of the failed track with a
   * new description naming the best alternative, a "Cause" field and a field listing
   * the first three alternatives. `first().unwrap()` panics on an empty list.
   */
  function RecoveredWithAlternative(track: Track, error: TrackError, alternatives: seq<Alternative>): Embed
    requires |alternatives| > 0
  {
    var best := alternatives[0].track.info;
    var listed := alternatives[..Min(3, |alternatives|)];
    AddedToQueue(track).(
      description := Some(BestLine(best)),
      fields := [
        EmbedField("Cause", CauseText(track, error), false),
        EmbedField("Top-scoring alternatives", FoldAlternatives("```", listed) + "```", false)
      ])
  }

  /** At most three alternatives are listed: exactly the first `min(3, n)`, in order. */
  lemma RecoveredListsTopThree(track: Track, error: TrackError, alternatives: seq<Alternative>)
    requires |alternatives| > 0
    ensures |RecoveredWithAlternative(track, error, alternatives).fields| == 2
    ensures RecoveredWithAlternative(track, error, alternatives).fields[1].value
              == "```" + AlternativeLines(alternatives[..Min(3, |alternatives|)]) + "```"
    ensures |alternatives[..Min(3, |alternatives|)]| <= 3
  {
    FoldIsConcatenation("```", alternatives[..Min(3, |alternatives|)]);
  }

  /** Alternatives beyond the third change nothing in the embed. */
  lemma RecoveredIgnoresTail(track: Track, error: TrackError, a: seq<Alternative>, b: seq<Alternative>)
    requires |a| >= 3 && |b| >= 3 && a[..3] == b[..3]
    ensures RecoveredWithAlternative(track, error, a) == RecoveredWithAlternative(track, error, b)
  {
    assert a[0] == a[..3][0] && b[0] == b[..3][0];
  }

  /**
   * The description shows the best alternative's author and title with every `*`
   * escaped, and an escaped text reads back as the original.
   */
  lemma RecoveredEscapesBest(track: Track, error: TrackError, alternatives: seq<Alternative>)
    requires |alternatives| > 0
    ensures var best := alternatives[0].track.info;
            var d := RecoveredWithAlternative(track, error, alternatives).description;
            && d.Some? && StartsWith(d.value, RecoveryHeader)
            && EndsWith(d.value, EscapedCredit(best))
            && StarsEscaped(EscapeStars(best.author)) && UnescapeStars(EscapeStars(best.author)) == best.author
            && StarsEscaped(EscapeStars(best.title)) && UnescapeStars(EscapeStars(best.title)) == best.title
  {
    var best := alternatives[0].track.info;
    EscapeStarsEscapes(best.author);
    EscapeStarsEscapes(best.title);
    UnescapeEscapeStars(best.author);
    UnescapeEscapeStars(best.title);
    Affixes(RecoveryHeader, BestSummary(best), EscapedCredit(best));
  }

  // ---------------------------------------------------------------- search_results

  /** One entry: emoji, bold number, duration, author and title. */
  function EntryLine(t: Track, number: nat): string {
    EmojiText(SourceToEmoji(t.info.sourceName)) + " **" + NatToString(number) + "**. `[" + FormatMillis(t.info.length)
      + "]` " + t.info.author + " - " + t.info.title + "\n"
  }

  /** The entries of one source group, numbered from `first` on. */
  function GroupLines(group: seq<Track>, first: nat): (r: seq<string>)
    ensures |r| == |group|
    decreases |group|
  {
    if group == [] then [] else [EntryLine(group[0], first)] + GroupLines(group[1..], first + 1)
  }

  /** Equal numbers give equal entries. */
  lemma SameEntry(t: Track, a: nat, b: nat)
    requires a == b
    ensures EntryLine(t, a) == EntryLine(t, b)
  {
  }

  /** Entry `j` of a group numbered from `first` carries the number `first + j`. */
  lemma {:induction false} GroupLineAt(group: seq<Track>, first: nat, j: nat)
    requires j < |group|
    ensures GroupLines(group, first)[j] == EntryLine(group[j], first + j)
    decreases j
  {
    if j > 0 {
      GroupLineAt(group[1..], first + 1, j - 1);
      assert group[1..][j - 1] == group[j];
    }
  }

  /** Strings written one after another. */
  function Concat(parts: seq<string>): string
    decreases |parts|
  {
    if parts == [] then "" else Concat(parts[..|parts| - 1]) + parts[|parts| - 1]
  }

  /** Writing one more piece at the end of a text. */
  lemma ConcatSnoc(parts: seq<string>, part: string)
    ensures Concat(parts + [part]) == Concat(parts) + part
  {
    assert (parts + [part])[..|parts|] == parts;
  }

  /**
   * The search-results text for the first `n` groups: each group's entries, numbered
   * on from the groups before it, then a line break.
   */
  function SearchText(results: seq<seq<Track>>, n: nat): string
    requires n <= |results|
  {
    if n == 0 then "" else SearchText(results, n - 1) + Concat(GroupLines(results[n - 1], Offset(results, n - 1) + 1)) + "\n"
  }

  /** Writes the entry of `group[j]` with the number `n`, which is entry `j` of the group. */
  method WriteEntry(group: seq<Track>, first: nat, j: nat, n: nat) returns (line: string)
    requires j < |group| && n == first + j
    ensures line == GroupLines(group, first)[j]
  {
    line := EntryLine(group[j], n);
    GroupLineAt(group, first, j);
    SameEntry(group[j], n, first + j);
  }

  /** Writes the entries of one group, numbered from `first` on, after `text`. */
  method WriteGroup(text: string, group: seq<Track>, first: nat) returns (out: string)
    ensures out == text + Concat(GroupLines(group, first))
  {
    out := text;
    ghost var lines := GroupLines(group, first);
    for j := 0 to |group|
      invariant out == text + Concat(lines[..j])
    {
      var line := WriteEntry(group, first, j, first + j);
      TakeSnoc(lines, j);
      ConcatSnoc(lines[..j], line);
      AppendAssoc(text, Concat(lines[..j]), line);
      out := out + line;
    }
    assert lines[..|group|] == lines;
  }

  /**
   * `search_results`: one line per result, numbered 1, 2, ... straight across the
   * groups, and a line break after every group, empty ones included.
   */
  method SearchResults(results: seq<seq<Track>>) returns (e: Embed)
    ensures e == EmptyEmbed.(description := Some(SearchText(results, |results|)))
  {
    var description := "";
    var i: nat := 0;
    for g := 0 to |results|
      invariant description == SearchText(results, g)
      invariant i == Offset(results, g)
    {
      description := WriteGroup(description, results[g], i + 1);
      description := description + "\n";
      OffsetNext(results, g);
      i := i + |results[g]|;
    }
    e := EmptyEmbed.(description := Some(description));
  }

  /**
   * The numbering is continuous: the entry of result `j` of group `g` carries the
   * number `k + 1`, where `k` is that result's place in the flattened result list.
   */
  lemma SearchNumbering(results: seq<seq<Track>>, g: nat, j: nat)
    requires g < |results| && j < |results[g]|
    ensures var k := Offset(results, g) + j;
            && k < |Flatten(results)|
            && Flatten(results)[k] == results[g][j]
            && GroupLines(results[g], Offset(results, g) + 1)[j] == EntryLine(Flatten(results)[k], k + 1)
  {
    FlattenAt(results, g, j);
    GroupLineAt(results[g], Offset(results, g) + 1, j);
    assert Offset(results, g) + 1 + j == Offset(results, g) + j + 1;
  }

  /** The numbering starts at 1 and each group continues where the previous one stopped. */
  lemma SearchNumberingContinues(results: seq<seq<Track>>, g: nat)
    requires g < |results|
    ensures Offset(results, 0) == 0
    ensures Offset(results, g + 1) == Offset(results, g) + |results[g]|
  {
    OffsetNext(results, g);
  }

  // ---------------------------------------------------------------- queue_message

  /** `{:02}:{:02}` of the position's whole minutes and remaining seconds; there is no hours field. */
  function PlayClock(position: nat): string {
    Pad2(position / 1000 / 60) + ":" + Pad2(position / 1000 % 60)
  }

  /** Whole minutes of a position stay below 100 exactly for positions below 100 minutes. */
  lemma MinutesBelowHundred(position: nat)
    ensures (position / 1000 / 60 < 100) == (position < 6_000_000)
  {
    var secs := position / 1000;
    assert secs * 1000 <= position < secs * 1000 + 1000;
    assert (secs < 6000) == (position < 6_000_000);
    assert secs / 60 * 60 <= secs < secs / 60 * 60 + 60;
  }

  /** The clock reads back as the whole seconds; below 100 minutes it is exactly `MM:SS`. */
  lemma PlayClockReadsBack(position: nat)
    ensures var s := PlayClock(position);
            && |s| >= 5 && s[|s| - 3] == ':'
            && AllDigits(s[..|s| - 3]) && AllDigits(s[|s| - 2..])
            && ParseNat(s[..|s| - 3]) * 60 + ParseNat(s[|s| - 2..]) == position / 1000
            && (position < 6_000_000 <==> |s| == 5)
  {
    var secs := position / 1000;
    var m, sec := secs / 60, secs % 60;
    assert m * 60 + sec == secs;
    var mm, ss := Pad2(m), Pad2(sec);
    ParsePadLeft(m, 2);
    ParsePadLeft(sec, 2);
    Pad2Length(sec);
    NatToStringLength(m);
    MinutesBelowHundred(position);
    assert (|mm| == 2) == (m < 100);
    var s := PlayClock(position);
    assert s == mm + ":" + ss;
    assert s[..|s| - 3] == mm;
    assert s[|s| - 2..] == ss;
  }

  /**
   * One listing line `n -> author - title | Requested by <@!id>`, linked when the
   * track has a URI, as written: without a URI the mention is left unclosed.
   */
  function QueueLine(number: nat, info: TrackInfo, mention: string): (line: string)
    ensures StartsWith(line, NatToString(number) + " -> ")
    ensures EndsWith(line, "<@!" + mention + (if info.uri.Some? then ">" else ""))
  {
    var shown :=
      if info.uri.Some? then "[" + info.author + " - " + info.title + "](<" + info.uri.value + ">) | Requested by "
      else info.author + " - " + info.title + " | Requested by ";
    var close := if info.uri.Some? then ">" else "";
    var body := shown + "<@!" + mention + close;
    EndsWithThree(shown, "<@!", mention, close);
    EndsWithPrefixed(NatToString(number) + " -> ", body, "<@!" + mention + close);
    Halves(NatToString(number) + " -> ", body);
    NatToString(number) + " -> " + body
  }

  /** Without a URI, the line as written stops right after the requester id: no `>` closes the mention. */
  lemma QueueLineUnclosed(number: nat, info: TrackInfo, id: nat)
    requires info.uri.None?
    ensures EndsWith(QueueLine(number, info, NatToString(id)), "<@!" + NatToString(id))
    ensures QueueLine(number, info, NatToString(id))[|QueueLine(number, info, NatToString(id))| - 1] != '>'
  {
    var m := NatToString(id);
    NatToStringDigits(id);
    assert IsDigit(m[|m| - 1]);
    assert "<@!" + m + "" == "<@!" + m;
  }

  /** The listing line with the mention closed on both branches. */
  function QueueLineFixed(number: nat, info: TrackInfo, mention: string): (line: string)
    ensures StartsWith(line, NatToString(number) + " -> ")
    ensures EndsWith(line, "<@!" + mention + ">")
    ensures info.uri.Some? ==> line == QueueLine(number, info, mention)
  {
    var shown :=
      if info.uri.Some? then "[" + info.author + " - " + info.title + "](<" + info.uri.value + ">) | Requested by "
      else info.author + " - " + info.title + " | Requested by ";
    var body := shown + "<@!" + mention + ">";
    EndsWithThree(shown, "<@!", mention, ">");
    EndsWithPrefixed(NatToString(number) + " -> ", body, "<@!" + mention + ">");
    Halves(NatToString(number) + " -> ", body);
    NatToString(number) + " -> " + body
  }

  predicate AllDecode(tracks: seq<Track>) {
    forall k :: 0 <= k < |tracks| ==> DecodeRequester(tracks[k]).Some?
  }

  /** The requester id of a track whose user data decodes, as text. */
  function Mention(t: Track): string
    requires DecodeRequester(t).Some?
  {
    NatToString(DecodeRequester(t).value)
  }

  /** The listing lines of `tracks` as written, numbered from `first` on, each with its requester. */
  function ListingLines(tracks: seq<Track>, first: nat): (r: seq<string>)
    requires AllDecode(tracks)
    ensures |r| == |tracks|
    decreases |tracks|
  {
    if tracks == [] then []
    else
      assert DecodeRequester(tracks[0]).Some?;
      [QueueLine(first, tracks[0].info, Mention(tracks[0]))] + ListingLines(tracks[1..], first + 1)
  }

  /** Listing line `k` is numbered `first + k` and shows entry `k` with its requester. */
  lemma {:induction false} ListingLineAt(tracks: seq<Track>, first: nat, k: nat)
    requires AllDecode(tracks) && k < |tracks|
    ensures DecodeRequester(tracks[k]).Some?
    ensures ListingLines(tracks, first)[k] == QueueLine(first + k, tracks[k].info, Mention(tracks[k]))
    decreases k
  {
    if k > 0 {
      assert tracks[1..][k - 1] == tracks[k];
      ListingLineAt(tracks[1..], first + 1, k - 1);
    }
  }

  /** The listing with every mention closed, as the lines with a URI already are. */
  function FixedListing(tracks: seq<Track>, first: nat): (r: seq<string>)
    requires AllDecode(tracks)
    ensures |r| == |tracks|
    decreases |tracks|
  {
    if tracks == [] then []
    else
      assert DecodeRequester(tracks[0]).Some?;
      [QueueLineFixed(first, tracks[0].info, Mention(tracks[0]))] + FixedListing(tracks[1..], first + 1)
  }

  /** Line `k` of the corrected listing is numbered `first + k` and shows entry `k` with its requester. */
  lemma {:induction false} FixedListingAt(tracks: seq<Track>, first: nat, k: nat)
    requires AllDecode(tracks) && k < |tracks|
    ensures DecodeRequester(tracks[k]).Some?
    ensures FixedListing(tracks, first)[k] == QueueLineFixed(first + k, tracks[k].info, Mention(tracks[k]))
    decreases k
  {
    if k > 0 {
      assert tracks[1..][k - 1] == tracks[k];
      FixedListingAt(tracks[1..], first + 1, k - 1);
    }
  }

  /** The two listings differ only on entries without a URI: when every entry has one, they agree. */
  lemma {:induction false} ListingsAgreeWithUris(tracks: seq<Track>, first: nat)
    requires AllDecode(tracks)
    requires forall k :: 0 <= k < |tracks| ==> tracks[k].info.uri.Some?
    ensures ListingLines(tracks, first) == FixedListing(tracks, first)
    decreases |tracks|
  {
    if tracks != [] {
      assert forall k :: 0 <= k < |tracks| - 1 ==> tracks[1..][k] == tracks[k + 1];
      ListingsAgreeWithUris(tracks[1..], first + 1);
    }
  }

  /** The "Now playing" line, linked when the track has a URI. */
  function NowPlayingLine(info: TrackInfo, position: nat, mention: string): (line: string)
    ensures StartsWith(line, "Now playing: ")
    ensures EndsWith(line, " | " + PlayClock(position) + ", Requested by <@!" + mention + ">")
  {
    var shown :=
      if info.uri.Some? then "[" + info.author + " - " + info.title + "](<" + info.uri.value + ">)"
      else info.author + " - " + info.title;
    var tail := " | " + PlayClock(position) + ", Requested by <@!" + mention + ">";
    Affixes("Now playing: ", shown, tail);
    "Now playing: " + shown + tail
  }

  const NothingPlaying := "Now playing: nothing"

  /** What `TrackUserData::try_from` fails with. */
  const UserDataError := "track user data does not decode"

  /** The message: the now-playing line, a blank line, then the listing lines joined by line breaks. */
  function Compose(nowPlaying: string, lines: seq<string>): (m: string)
    ensures StartsWith(m, nowPlaying) && EndsWith(m, "\n\n" + Join(lines, "\n"))
  {
    Halves(nowPlaying, "\n\n" + Join(lines, "\n"));
    nowPlaying + "\n\n" + Join(lines, "\n")
  }

  /**
   * `queue_message`: the now-playing line, a blank line and the first `min(count, 9)`
   * queue entries numbered from 1. Fetching the player or the count may fail; an
   * entry whose user data does not decode makes the `unwrap` panic; a current track
   * whose user data does not decode raises an error.
   */
  function QueueMessage(queue: seq<Track>, current: Option<Track>, position: nat,
                        playerError: Option<string>, countError: Option<string>): (r: Outcome<string>)
    ensures playerError.Some? ==> r == Raised(playerError.value)
    ensures playerError.None? && countError.Some? ==> r == Raised(countError.value)
    ensures r.Panicked? <==> playerError.None? && countError.None? && !AllDecode(queue[..Min(|queue|, 9)])
    ensures r.Returned? <==>
              && playerError.None? && countError.None? && AllDecode(queue[..Min(|queue|, 9)])
              && (current.Some? ==> DecodeRequester(current.value).Some?)
    ensures (&& playerError.None? && countError.None? && AllDecode(queue[..Min(|queue|, 9)])
             && current.Some? && DecodeRequester(current.value).None?) ==> r == Raised(UserDataError)
    ensures r.Returned? ==>
              StartsWith(r.value, if current.None? then NothingPlaying
                                  else NowPlayingLine(current.value.info, position, Mention(current.value)))
    ensures r.Returned? ==> EndsWith(r.value, "\n\n" + Join(ListingLines(queue[..Min(|queue|, 9)], 1), "\n"))
  {
    if playerError.Some? then Raised(playerError.value)
    else if countError.Some? then Raised(countError.value)
    else
      var listed := queue[..Min(|queue|, 9)];
      if !AllDecode(listed) then Panicked
      else
        var lines := ListingLines(listed, 1);
        match current
        case None => Returned(Compose(NothingPlaying, lines))
        case Some(t) =>
          match DecodeRequester(t)
          case None => Raised(UserDataError)
          case Some(_) => Returned(Compose(NowPlayingLine(t.info, position, Mention(t)), lines))
  }

  /**
   * The listing as written shows the first `min(count, 9)` entries, line `k`
   * numbered `k + 1`; it ends with the requester's mention, closed by `>` only
   * when the entry has a URI.
   */
  lemma ListingAsWritten(queue: seq<Track>)
    requires AllDecode(queue[..Min(|queue|, 9)])
    ensures var lines := ListingLines(queue[..Min(|queue|, 9)], 1);
            && |lines| == Min(|queue|, 9) && |lines| <= 9
            && forall k :: 0 <= k < |lines| ==>
                 && DecodeRequester(queue[k]).Some?
                 && StartsWith(lines[k], NatToString(k + 1) + " -> ")
                 && EndsWith(lines[k], "<@!" + Mention(queue[k]) + (if queue[k].info.uri.Some? then ">" else ""))
  {
    var listed := queue[..Min(|queue|, 9)];
    forall k | 0 <= k < |listed|
      ensures DecodeRequester(queue[k]).Some? && ListingLines(listed, 1)[k] == QueueLine(k + 1, queue[k].info, Mention(queue[k]))
    {
      ListingLineAt(listed, 1, k);
      assert listed[k] == queue[k];
    }
  }

  /** The corrected listing: at most nine lines, line `k` numbered `k + 1` with a closed mention of its requester. */
  lemma ListingNumbered(queue: seq<Track>)
    requires AllDecode(queue[..Min(|queue|, 9)])
    ensures var lines := FixedListing(queue[..Min(|queue|, 9)], 1);
            && |lines| == Min(|queue|, 9) && |lines| <= 9
            && forall k :: 0 <= k < |lines| ==>
                 && DecodeRequester(queue[k]).Some?
                 && StartsWith(lines[k], NatToString(k + 1) + " -> ")
                 && EndsWith(lines[k], "<@!" + Mention(queue[k]) + ">")
  {
    var listed := queue[..Min(|queue|, 9)];
    forall k | 0 <= k < |listed|
      ensures DecodeRequester(queue[k]).Some? && FixedListing(listed, 1)[k] == QueueLineFixed(k + 1, queue[k].info, Mention(queue[k]))
    {
      FixedListingAt(listed, 1, k);
      assert listed[k] == queue[k];
    }
  }

  /** Queue entries after the ninth never show up in the message. */
  lemma QueueMessageIgnoresTail(a: seq<Track>, b: seq<Track>, current: Option<Track>, position: nat,
                                playerError: Option<string>, countError: Option<string>)
    requires |a| >= 9 && |b| >= 9 && a[..9] == b[..9]
    ensures QueueMessage(a, current, position, playerError, countError)
            == QueueMessage(b, current, position, playerError, countError)
  {
  }
}
