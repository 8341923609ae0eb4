/**
 * src/util.rs: duration formatting, the per-source emoji and colour tables,
 * enqueueing tagged tracks and the "is the bot in a channel" check.
 */
module Util {
  import opened Wrappers
  import opened Text
  import opened Lavalink
  import opened Discord

  // ---------------------------------------------------------------- format_millis

  /** Whole hours, minutes within the hour and seconds within the minute of a duration. */
  function ClockHours(millis: nat): nat { millis / 1000 / 60 / 60 }
  function ClockMinutes(millis: nat): nat { millis / 1000 / 60 % 60 }
  function ClockSeconds(millis: nat): nat { millis / 1000 % 60 }

  /** `format_millis`: `[HH:]MM:SS`, the hours field only for an hour or more. */
  function FormatMillis(millis: nat): string {
    var hours := ClockHours(millis);
    var prefix := if hours > 0 then Pad2(hours) + ":" else "";
    prefix + Pad2(ClockMinutes(millis)) + ":" + Pad2(ClockSeconds(millis))
  }

  /** The three fields split the whole seconds of the duration. */
  lemma ClockComponents(millis: nat)
    ensures ClockMinutes(millis) < 60 && ClockSeconds(millis) < 60
    ensures ClockHours(millis) * 3600 + ClockMinutes(millis) * 60 + ClockSeconds(millis) == millis / 1000
    ensures (ClockHours(millis) > 0) == (millis >= 3_600_000)
  {
    var total := millis / 1000;
    var h, m, s := ClockHours(millis), ClockMinutes(millis), ClockSeconds(millis);
    assert total == (total / 60) * 60 + s;
    assert total / 60 == h * 60 + m;
    calc {
      h * 3600 + m * 60 + s;
      (h * 60 + m) * 60 + s;
      (total / 60) * 60 + s;
      total;
    }
  }

  /** A field below 100 is exactly two characters once padded. */
  lemma Pad2Length(n: nat)
    requires n < 100
    ensures |Pad2(n)| == 2 && AllDigits(Pad2(n))
  {
    NatToStringLength(n);
  }

  /** Shape of a rendered duration: `MM:SS`, or `H..:MM:SS` with at least two hour digits. */
  predicate ClockShaped(s: string) {
    && |s| >= 5
    && s[|s| - 3] == ':'
    && AllDigits(s[|s| - 5..|s| - 3])
    && AllDigits(s[|s| - 2..])
    && (|s| > 5 ==> |s| >= 8 && s[|s| - 6] == ':' && AllDigits(s[..|s| - 6]))
  }

  /** Reads a rendered duration back as whole seconds. */
  function ParseClock(s: string): nat
    requires ClockShaped(s)
  {
    (if |s| > 5 then ParseNat(s[..|s| - 6]) * 3600 else 0)
      + ParseNat(s[|s| - 5..|s| - 3]) * 60
      + ParseNat(s[|s| - 2..])
  }

  /** Below an hour the rendering is `MM:SS`: five characters, no hours field. */
  lemma FormatMillisShort(millis: nat)
    ensures (|FormatMillis(millis)| == 5) == (millis < 3_600_000)
    ensures millis < 3_600_000 ==>
              FormatMillis(millis) == Pad2(ClockMinutes(millis)) + ":" + Pad2(ClockSeconds(millis))
    ensures millis >= 3_600_000 ==>
              FormatMillis(millis) == Pad2(ClockHours(millis)) + ":" + Pad2(ClockMinutes(millis)) + ":" + Pad2(ClockSeconds(millis))
  {
    ClockComponents(millis);
    Pad2Length(ClockMinutes(millis));
    Pad2Length(ClockSeconds(millis));
    NatToStringLength(ClockHours(millis));
  }

  /** Rendering loses nothing above millisecond precision: parsing gives the whole seconds back. */
  lemma FormatMillisRoundTrip(millis: nat)
    ensures ClockShaped(FormatMillis(millis))
    ensures ParseClock(FormatMillis(millis)) == millis / 1000
  {
    var h, m, s := ClockHours(millis), ClockMinutes(millis), ClockSeconds(millis);
    ClockComponents(millis);
    FormatMillisShort(millis);
    Pad2Length(m);
    Pad2Length(s);
    ParsePadLeft(m, 2);
    ParsePadLeft(s, 2);
    var mm, ss := Pad2(m), Pad2(s);
    var r := FormatMillis(millis);
    if h > 0 {
      var hh := Pad2(h);
      ParsePadLeft(h, 2);
      NatToStringLength(h);
      assert |hh| >= 2;
      assert r == hh + ":" + mm + ":" + ss;
      assert r[..|r| - 6] == hh;
      assert r[|r| - 5..|r| - 3] == mm;
      assert r[|r| - 2..] == ss;
    } else {
      assert r == mm + ":" + ss;
      assert r[|r| - 5..|r| - 3] == mm;
      assert r[|r| - 2..] == ss;
    }
  }

  // ---------------------------------------------------------------- source tables

  predicate IsKnownSource(source: string) {
    source == "youtube" || source == "deezer" || source == "soundcloud" || source == "spotify"
  }

  const FallbackEmoji := Emoji("thonk", "464380571628339210")

  /** `source_to_emoji`: each known source has an emoji of its own name; the rest share one. */
  function SourceToEmoji(source: string): (e: Emoji)
    ensures IsKnownSource(source) ==> e.name == source
    ensures !IsKnownSource(source) ==> e == FallbackEmoji
  {
    if source == "youtube" then Emoji("youtube", "1290422789899157546")
    else if source == "deezer" then Emoji("deezer", "1290423677913006090")
    else if source == "soundcloud" then Emoji("soundcloud", "1290423857336811612")
    else if source == "spotify" then Emoji("spotify", "1366886498170961992")
    else FallbackEmoji
  }

  const FallbackColor: nat := 0x23272A

  /** `source_to_color`: a 24-bit RGB colour per source. */
  function SourceToColor(source: string): (c: nat)
    ensures c < 0x100_0000
    ensures source == "youtube" ==> c == 0xff0000
    ensures source == "deezer" ==> c == 0xa238ff
    ensures source == "soundcloud" ==> c == 0xf15e22
    ensures source == "spotify" ==> c == 0x1ED760
    ensures !IsKnownSource(source) ==> c == FallbackColor
  {
    if source == "youtube" then 0xff0000
    else if source == "deezer" then 0xa238ff
    else if source == "soundcloud" then 0xf15e22
    else if source == "spotify" then 0x1ED760
    else FallbackColor
  }

  /** The colour tells the source: known sources never share a colour, nor the fallback's. */
  lemma SourceColorIdentifies(a: string, b: string)
    requires IsKnownSource(a)
    requires SourceToColor(a) == SourceToColor(b)
    ensures a == b
  {
  }

  /** Likewise the emoji: a known source's emoji belongs to it alone. */
  lemma SourceEmojiIdentifies(a: string, b: string)
    requires IsKnownSource(a)
    requires SourceToEmoji(a) == SourceToEmoji(b)
    ensures a == b
  {
  }

  // ---------------------------------------------------------------- enqueue_tracks

  /**
   * `enqueue_tracks`: every track gets the serialised requester as its user data,
   * then all of them go to the tail of the queue in order. The serialisation runs
   * once per track; when it fails the function returns before `append`.
   */
  method EnqueueTracks(player: Player, tracks: seq<Track>, requester: nat, serializeFails: bool)
      returns (r: Result<(), string>)
    modifies player
    ensures r.Err? <==> serializeFails && |tracks| > 0
    ensures r.Err? ==> player.queue == old(player.queue)
    ensures r.Ok? ==> |player.queue| == |old(player.queue)| + |tracks|
    ensures r.Ok? ==> player.queue[..|old(player.queue)|] == old(player.queue)
    ensures r.Ok? ==> forall k :: 0 <= k < |tracks| ==>
              player.queue[|old(player.queue)| + k] == WithUserData(tracks[k], RequesterObject(requester))
    ensures player.current == old(player.current) && player.position == old(player.position)
  {
    var pending := tracks;
    var i := 0;
    while i < |pending|
      invariant 0 <= i <= |pending| == |tracks|
      invariant i > 0 ==> !serializeFails
      invariant forall k :: 0 <= k < i ==> pending[k] == WithUserData(tracks[k], RequesterObject(requester))
      invariant forall k :: i <= k < |pending| ==> pending[k] == tracks[k]
    {
      if serializeFails {
        return Err("failed to serialise the track user data");
      }
      pending := pending[i := WithUserData(pending[i], RequesterObject(requester))];
      i := i + 1;
    }
    player.Append(pending);
    return Ok(());
  }

  // ---------------------------------------------------------------- check_if_in_channel

  /** `check_if_in_channel`: the guild's player context, or a user error without one. */
  function CheckIfInChannel(client: Client, guild: nat): (r: Result<Player, string>)
    reads client
    ensures r.Err? <==> guild !in client.players
    ensures r.Ok? ==> r.value == client.players[guild]
    ensures r.Err? ==> r.error == "Not in a voice channel!"
  {
    if guild in client.players then Ok(client.players[guild]) else Err("Not in a voice channel!")
  }
}
