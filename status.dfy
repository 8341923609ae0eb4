/**
 * The status message `StatusBuilder` builds: an embed for the track that is
 * playing (or a placeholder when nothing is) and an embed listing the queue.
 */
module Status {
  import opened Wrappers
  import opened Text
  import opened Lavalink
  import opened Util
  import opened Discord

  // ---------------------------------------------------------------- player_embed

  /** The icon shown when nothing is playing. */
  const ShushUrl := "https://em-content.zobj.net/source/twitter/408/shushing-face_1f92b.png"

  /** What is shown when nothing plays: 4'33" by John Cage, performed by the bot's member. */
  function Placeholder(memberName: string): TrackInfo {
    TrackInfo("", "John Cage", "4'33\" (performed by " + memberName + ")", 0, "", None, Some(""), None)
  }

  /** The track information the embed shows. */
  function ShownInfo(current: Option<Track>, memberName: string): TrackInfo {
    if current.Some? then current.value.info else Placeholder(memberName)
  }

  /** "Requested by NAME" with the requester's avatar, when the user data decodes and the requester is cached. */
  function Footer(current: Option<Track>, users: map<nat, User>): (f: Option<EmbedFooter>)
    ensures f.Some? <==> current.Some? && DecodeRequester(current.value).Some? && DecodeRequester(current.value).value in users
    ensures f.Some? ==> var u := users[DecodeRequester(current.value).value];
                        f.value == EmbedFooter("Requested by " + u.displayName, u.face)
  {
    match current
    case None => None
    case Some(t) =>
      match DecodeRequester(t)
      case None => None
      case Some(id) =>
        if id in users then Some(EmbedFooter("Requested by " + users[id].displayName, users[id].face)) else None
  }

  /** `player_embed`: title, author with icon, progress, colour, link, thumbnail and footer. */
  function PlayerEmbed(current: Option<Track>, position: nat, memberName: string, users: map<nat, User>): (e: Embed)
    ensures current.None? ==>
              && e.title == Some("4'33\" (performed by " + memberName + ")")
              && e.author == Some(EmbedAuthor("John Cage", ImageUrl(ShushUrl)))
              && e.url.None? && e.thumbnail == Some("") && e.footer.None?
              && e.color == Some(FallbackColor)
    ensures current.Some? ==>
              var info := current.value.info;
              && e.title == Some(info.title)
              && e.author == Some(EmbedAuthor(info.author, EmojiImage(SourceToEmoji(info.sourceName))))
              && e.url == info.uri && e.thumbnail == info.artworkUrl
              && e.color == Some(SourceToColor(info.sourceName))
    ensures e.footer.Some? <==>
              current.Some? && DecodeRequester(current.value).Some? && DecodeRequester(current.value).value in users
  {
    var info := ShownInfo(current, memberName);
    Embed(
      title := Some(info.title),
      description := Some(FormatMillis(position) + " / " + FormatMillis(info.length)),
      author := Some(EmbedAuthor(info.author,
                                 if current.Some? then EmojiImage(SourceToEmoji(info.sourceName)) else ImageUrl(ShushUrl))),
      color := Some(SourceToColor(info.sourceName)),
      url := info.uri,
      image := None,
      thumbnail := info.artworkUrl,
      footer := Footer(current, users),
      fields := [])
  }

  /** The progress reads back as the position and the length, in whole seconds; the placeholder lasts zero seconds. */
  lemma PlayerProgress(current: Option<Track>, position: nat, memberName: string, users: map<nat, User>)
    ensures var d := PlayerEmbed(current, position, memberName, users).description;
            var length := if current.Some? then current.value.info.length else 0;
            && d == Some(FormatMillis(position) + " / " + FormatMillis(length))
            && ClockShaped(FormatMillis(position)) && ParseClock(FormatMillis(position)) == position / 1000
            && ClockShaped(FormatMillis(length)) && ParseClock(FormatMillis(length)) == length / 1000
  {
    var length := if current.Some? then current.value.info.length else 0;
    FormatMillisRoundTrip(position);
    FormatMillisRoundTrip(length);
  }

  // ---------------------------------------------------------------- queue_embed

  /** Numbers are padded to two digits once the queue holds ten tracks or more. */
  function Width(count: nat): nat {
    if count >= 10 then 2 else 1
  }

  /** One queue line: emoji, bold zero-padded number, duration, author and title. */
  function StatusLine(info: TrackInfo, number: nat, width: nat): string {
    EmojiText(SourceToEmoji(info.sourceName)) + " **" + PadLeft(NatToString(number), width) + ".** `["
      + FormatMillis(info.length) + "]` " + info.author + " - " + info.title
  }

  /** The lines of `queue`, numbered from `first` on. */
  function StatusLines(queue: seq<Track>, first: nat, width: nat): (r: seq<string>)
    ensures |r| == |queue|
    decreases |queue|
  {
    if queue == [] then [] else [StatusLine(queue[0].info, first, width)] + StatusLines(queue[1..], first + 1, width)
  }

  /** Line `k` shows entry `k` with the number `first + k`. */
  lemma {:induction false} StatusLineAt(queue: seq<Track>, first: nat, width: nat, k: nat)
    requires k < |queue|
    ensures StatusLines(queue, first, width)[k] == StatusLine(queue[k].info, first + k, width)
    decreases k
  {
    if k > 0 {
      StatusLineAt(queue[1..], first + 1, width, k - 1);
      assert queue[1..][k - 1] == queue[k];
    }
  }

  /** The line that stands for the entries cut off. */
  function MoreLine(n: nat): string {
    "*... " + NatToString(n) + " more*"
  }

  const EmptyQueue := "-# The queue is empty"

  /** The lines shown for a queue: at most fifteen entries, then how many more there are. */
  function Shown(queue: seq<Track>): (lines: seq<string>)
    ensures |lines| == if |queue| > 15 then 16 else |queue|
    ensures forall k :: 0 <= k < |queue| && k < 15 ==> lines[k] == StatusLine(queue[k].info, k + 1, Width(|queue|))
    ensures |queue| > 15 ==> lines[15] == MoreLine(|queue| - 15)
  {
    var all := StatusLines(queue, 1, Width(|queue|));
    forall k | 0 <= k < |queue| && k < 15
      ensures all[k] == StatusLine(queue[k].info, k + 1, Width(|queue|))
    {
      StatusLineAt(queue, 1, Width(|queue|), k);
    }
    if |queue| > 15 then all[..15] + [MoreLine(|queue| - 15)] else all
  }

  /**
   * `queue_embed`: the "Queue" embed. The count must be fetched (a failure
   * panics at the `unwrap`); the lines are built, cut to fifteen plus a line
   * saying how many more there are, and joined, or the empty-queue note is shown.
   */
  method QueueEmbed(queue: seq<Track>, countFails: bool) returns (r: Outcome<Embed>)
    ensures countFails ==> r == Panicked
    ensures !countFails ==>
              r == Returned(EmptyEmbed.(title := Some("Queue"),
                                        description := Some(if queue == [] then EmptyQueue else Join(Shown(queue), "\n"))))
  {
    if countFails {
      return Panicked;
    }
    var count := |queue|;
    var width := if count >= 10 then 2 else 1;
    var lines := StatusLines(queue, 1, width);
    if |lines| > 15 {
      var n := |lines| - 15;
      lines := lines[..15];
      lines := lines + [MoreLine(n)];
    }
    var description := if |lines| == 0 then EmptyQueue else Join(lines, "\n");
    r := Returned(EmptyEmbed.(title := Some("Queue"), description := Some(description)));
  }

  /**
   * Numbers line up: up to 99 entries every number takes exactly the width and
   * reads back as itself; from 100 entries on, three-digit numbers overflow it.
   */
  lemma NumberAligned(count: nat, n: nat)
    requires 1 <= n <= count
    ensures AllDigits(PadLeft(NatToString(n), Width(count)))
    ensures ParseNat(PadLeft(NatToString(n), Width(count))) == n
    ensures count < 100 ==> |PadLeft(NatToString(n), Width(count))| == Width(count)
    ensures n >= 100 ==> |PadLeft(NatToString(n), Width(count))| > Width(count)
  {
    ParsePadLeft(n, Width(count));
    NatToStringLength(n);
  }
}
