/**
 * src/music_events.rs: the recovery the `track_exception` hook runs when a
 * track fails during playback, and the filter `handle_voice_changes` applies
 * to Discord voice events before they reach Lavalink.
 *
 * The recovery is described by the actions it takes on the player, in order,
 * each with whether it succeeded. Which calls fail comes in as `Faults`; the
 * alternatives the scoring found come in as a sequence, best first.
 */
module MusicEvents {
  import opened Wrappers
  import opened Lavalink
  import opened Discord
  import opened Messages

  // ---------------------------------------------------------------- track_exception

  /**
   * Which calls of the recovery fail. `inspectFails` stands for the two fetches
   * inside the `debug!` at src/music_events.rs:82-86, which only run when debug
   * logging is on; `noData` for a player context without its controller data,
   * which makes `PlayerController::from` panic.
   */
  datatype Faults = Faults(stopFails: bool, inspectFails: bool, noData: bool,
                           pushFails: bool, sendFails: bool, skipFails: bool)

  /** The player as the recovery sees it. */
  datatype PlayerState = PlayerState(current: Option<Track>, position: nat, queue: seq<Track>)

  /** One call the recovery makes, with whether it went through. */
  datatype Action =
    | Stop(ok: bool)
    | PushFront(track: Track, ok: bool)
    | Send(embed: Embed, ok: bool)
    | Skip(ok: bool)

  /** What the hook leaves behind: its calls in order, the player, and whether the task panicked. */
  datatype Handled = Handled(trace: seq<Action>, state: PlayerState, panicked: bool)

  /** `Colour::GOLD`. */
  const Gold: nat := 0xF1C40F

  /** The notice sent when no alternative was found. */
  function FailureEmbed(track: Track, error: TrackError): (e: Embed)
    ensures e.author == Some(EmbedAuthor("Error during Playback", NoIcon))
    ensures e.color == Some(Gold)
    ensures e.title == Some(track.info.author + " - " + track.info.title)
    ensures e.description == Some(error.severity + " exception during playback:\n" + CauseText(track, error))
    ensures e.fields == [] && e.url.None? && e.footer.None?
  {
    EmptyEmbed.(
      author := Some(EmbedAuthor("Error during Playback", NoIcon)),
      color := Some(Gold),
      title := Some(track.info.author + " - " + track.info.title),
      description := Some(error.severity + " exception during playback:\n" + CauseText(track, error)))
  }

  /** `skip()` on the state: the queue head plays, or nothing when the queue is empty. */
  function Skipped(s: PlayerState, fails: bool): PlayerState {
    if fails then s
    else if s.queue != [] then PlayerState(Some(s.queue[0]), 0, s.queue[1..])
    else PlayerState(None, 0, [])
  }

  /**
   * `_track_exception` on the stopped player: the best alternative goes to the
   * front of the queue and the recovery embed is sent, or, with no
   * alternative, only the failure notice is sent. Each `?` ends it early.
   */
  function Recover(s: PlayerState, track: Track, error: TrackError, alternatives: seq<Alternative>, f: Faults): Handled {
    if f.inspectFails then Handled([], s, false)
    else if f.noData then Handled([], s, true)
    else if alternatives != [] then
      var best := alternatives[0].track;
      if f.pushFails then Handled([PushFront(best, false)], s, false)
      else Handled([PushFront(best, true), Send(RecoveredWithAlternative(track, error, alternatives), !f.sendFails)],
                   s.(queue := [best] + s.queue), false)
    else Handled([Send(FailureEmbed(track, error), !f.sendFails)], s, false)
  }

  /**
   * `track_exception`: stop the player first and give up if that fails; then
   * recover; then skip, whatever the recovery's result, so that playback
   * resumes from the queue.
   */
  function TrackException(s: PlayerState, track: Track, error: TrackError, alternatives: seq<Alternative>, f: Faults): Handled {
    if f.stopFails then Handled([Stop(false)], s, false)
    else
      var recovered := Recover(PlayerState(None, 0, s.queue), track, error, alternatives, f);
      if recovered.panicked then Handled([Stop(true)] + recovered.trace, recovered.state, true)
      else Handled([Stop(true)] + recovered.trace + [Skip(!f.skipFails)], Skipped(recovered.state, f.skipFails), false)
  }

  /** The hook always stops the player first; a failed stop ends it with nothing else done. */
  lemma StopComesFirst(s: PlayerState, track: Track, error: TrackError, alternatives: seq<Alternative>, f: Faults)
    ensures var h := TrackException(s, track, error, alternatives, f);
            && |h.trace| >= 1 && h.trace[0] == Stop(!f.stopFails)
            && (forall k :: 1 <= k < |h.trace| ==> !h.trace[k].Stop?)
            && (f.stopFails ==> h.trace == [Stop(false)] && h.state == s && !h.panicked)
  {
  }

  /**
   * After a successful stop the skip is attempted as the very last call,
   * whether or not the recovery failed; only the controller-data panic
   * prevents it.
   */
  lemma SkipAlwaysAttempted(s: PlayerState, track: Track, error: TrackError, alternatives: seq<Alternative>, f: Faults)
    requires !f.stopFails
    ensures var h := TrackException(s, track, error, alternatives, f);
            && (h.panicked <==> !f.inspectFails && f.noData)
            && (!h.panicked ==> h.trace[|h.trace| - 1] == Skip(!f.skipFails)
                                && forall k :: 0 <= k < |h.trace| - 1 ==> !h.trace[k].Skip?)
  {
    var h := TrackException(s, track, error, alternatives, f);
    var r := Recover(PlayerState(None, 0, s.queue), track, error, alternatives, f);
    assert forall k :: 0 <= k < |r.trace| ==> !r.trace[k].Skip?;
    if !h.panicked {
      assert h.trace == [Stop(true)] + r.trace + [Skip(!f.skipFails)];
    }
  }

  /** With alternatives, the best one and no other is pushed, to the front, before anything is sent. */
  lemma PushesBestBeforeSending(s: PlayerState, track: Track, error: TrackError, alternatives: seq<Alternative>, f: Faults)
    requires alternatives != [] && !f.stopFails && !f.inspectFails && !f.noData
    ensures var h := TrackException(s, track, error, alternatives, f);
            && h.trace[1] == PushFront(alternatives[0].track, !f.pushFails)
            && (forall k :: 0 <= k < |h.trace| && k != 1 ==> !h.trace[k].PushFront?)
            && (forall k :: 0 <= k < |h.trace| && h.trace[k].Send? ==> k > 1)
            && (f.pushFails ==> forall k :: 0 <= k < |h.trace| ==> !h.trace[k].Send?)
  {
  }

  /** With no alternative the queue is not touched: the failure notice is the only thing sent. */
  lemma NoAlternativeOnlyNotifies(s: PlayerState, track: Track, error: TrackError, f: Faults)
    requires !f.stopFails && !f.inspectFails && !f.noData
    ensures var h := TrackException(s, track, error, [], f);
            && h.trace == [Stop(true), Send(FailureEmbed(track, error), !f.sendFails), Skip(!f.skipFails)]
            && h.state == Skipped(PlayerState(None, 0, s.queue), f.skipFails)
  {
  }

  /** A failed send does not undo the push: the player ends the same whether the message got through or not. */
  lemma FailedSendKeepsPush(s: PlayerState, track: Track, error: TrackError, alternatives: seq<Alternative>, f: Faults)
    ensures TrackException(s, track, error, alternatives, f.(sendFails := true)).state
            == TrackException(s, track, error, alternatives, f.(sendFails := false)).state
  {
  }

  /** When every call succeeds, the best alternative plays next and the rest of the queue is as it was. */
  lemma BestPlaysNext(s: PlayerState, track: Track, error: TrackError, alternatives: seq<Alternative>)
    requires alternatives != []
    ensures var h := TrackException(s, track, error, alternatives, Faults(false, false, false, false, false, false));
            && h.state == PlayerState(Some(alternatives[0].track), 0, s.queue)
            && !h.panicked
  {
    assert ([alternatives[0].track] + s.queue)[1..] == s.queue;
  }

  /**
   * The hook on the player: `context` is the guild's player context (`None`
   * makes the `unwrap` panic before anything happens).
   */
  method TrackExceptionHook(context: Option<Player>, track: Track, error: TrackError,
                            alternatives: seq<Alternative>, f: Faults)
    returns (trace: seq<Action>, panicked: bool)
    modifies if context.Some? then {context.value} else {}
    ensures context.None? ==> trace == [] && panicked
    ensures context.Some? ==>
              var p := context.value;
              var h := TrackException(PlayerState(old(p.current), old(p.position), old(p.queue)),
                                      track, error, alternatives, f);
              && trace == h.trace && panicked == h.panicked
              && PlayerState(p.current, p.position, p.queue) == h.state
  {
    if context.None? {
      return [], true;
    }
    var player := context.value;
    var stopped := player.StopNow(f.stopFails);
    trace := [Stop(stopped)];
    if !stopped {
      return trace, false;
    }
    var steps;
    steps, panicked := RecoverOn(player, track, error, alternatives, f);
    trace := trace + steps;
    if panicked {
      return;
    }
    var skipped := player.Skip(f.skipFails);
    trace := trace + [Skip(skipped)];
  }

  /** `_track_exception` on the player. */
  method RecoverOn(player: Player, track: Track, error: TrackError, alternatives: seq<Alternative>, f: Faults)
    returns (trace: seq<Action>, panicked: bool)
    modifies player
    ensures var h := Recover(PlayerState(old(player.current), old(player.position), old(player.queue)),
                             track, error, alternatives, f);
            && trace == h.trace && panicked == h.panicked
            && PlayerState(player.current, player.position, player.queue) == h.state
  {
    if f.inspectFails {
      return [], false;
    }
    if f.noData {
      return [], true;
    }
    if alternatives != [] {
      var best := alternatives[0].track;
      var embed := RecoveredWithAlternative(track, error, alternatives);
      var pushed := player.PushToFront(best, f.pushFails);
      if !pushed {
        return [PushFront(best, false)], false;
      }
      return [PushFront(best, true), Send(embed, !f.sendFails)], false;
    }
    var notice := FailureEmbed(track, error);
    return [Send(notice, !f.sendFails)], false;
  }

  // ---------------------------------------------------------------- handle_voice_changes

  /** The two voice events the bot forwards: a voice state and a voice server update. */
  datatype VoiceChange =
    | StateChange(guild: Option<nat>, channel: Option<nat>, user: nat, session: string)
    | ServerChange(guild: Option<nat>, token: string, endpoint: Option<string>)

  /** What reaches Lavalink through `handle_voice_state_update` or `handle_voice_server_update`. */
  datatype Forwarded =
    | StateForwarded(guild: nat, channel: Option<nat>, user: nat, session: string)
    | ServerForwarded(guild: nat, token: string, endpoint: Option<string>)

  /** The event forwarded for `change`, if any: only the bot's own voice states, and only events with a guild. */
  function Forward(change: VoiceChange, botId: nat): (r: Option<Forwarded>)
    ensures r.None? <==> change.guild.None? || (change.StateChange? && change.user != botId)
    ensures r.Some? ==> r.value.guild == change.guild.value
    ensures r.Some? && change.StateChange? ==>
              r.value == StateForwarded(change.guild.value, change.channel, botId, change.session)
    ensures r.Some? && change.ServerChange? ==>
              r.value == ServerForwarded(change.guild.value, change.token, change.endpoint)
  {
    match change
    case StateChange(guild, channel, user, session) =>
      if guild.Some? && user == botId then Some(StateForwarded(guild.value, channel, user, session)) else None
    case ServerChange(guild, token, endpoint) =>
      if guild.Some? then Some(ServerForwarded(guild.value, token, endpoint)) else None
  }

  /** What `handle_voice_changes` did: the event it forwarded, the player it updated with the connection, and its result. */
  datatype VoiceHandled = VoiceHandled(forwarded: Option<Forwarded>, updated: Option<(nat, string)>,
                                       result: Result<(), string>)

  /**
   * `handle_voice_changes`: forward the event, then fetch the guild's
   * connection info through `connection` (an `Err` stands for the lookup
   * failing or timing out after three seconds) and update the player with it
   * (`updateError` when that request fails).
   */
  function HandleVoiceChanges(change: VoiceChange, botId: nat, connection: nat -> Result<string, string>,
                              updateError: Option<string>): (v: VoiceHandled)
    ensures v.forwarded == Forward(change, botId)
    ensures v.forwarded.None? ==> v.updated.None? && v.result == Ok(())
    ensures v.forwarded.Some? ==>
              var g := v.forwarded.value.guild;
              && (connection(g).Err? ==> v.updated.None? && v.result == Err(connection(g).error))
              && (connection(g).Ok? ==> v.updated == Some((g, connection(g).value))
                                        && v.result == if updateError.Some? then Err(updateError.value) else Ok(()))
  {
    var forwarded := Forward(change, botId);
    if forwarded.None? then VoiceHandled(None, None, Ok(()))
    else
      var g := forwarded.value.guild;
      match connection(g)
      case Err(e) => VoiceHandled(forwarded, None, Err(e))
      case Ok(conn) => VoiceHandled(forwarded, Some((g, conn)), if updateError.Some? then Err(updateError.value) else Ok(()))
  }

  /** Voice states of other users and events without a guild change nothing and never fail. */
  lemma VoiceIgnores(change: VoiceChange, botId: nat, connection: nat -> Result<string, string>, updateError: Option<string>)
    requires change.guild.None? || (change.StateChange? && change.user != botId)
    ensures HandleVoiceChanges(change, botId, connection, updateError) == VoiceHandled(None, None, Ok(()))
  {
  }

  /** Only the guild the event names is ever updated. */
  lemma VoiceUpdatesOwnGuild(change: VoiceChange, botId: nat, connection: nat -> Result<string, string>,
                             updateError: Option<string>)
    ensures var v := HandleVoiceChanges(change, botId, connection, updateError);
            v.updated.Some? ==> change.guild.Some? && v.updated.value.0 == change.guild.value
  {
  }
}
