/**
 * The parts of the lavalink-rs client the bot relies on, as values and as one
 * stateful player: track data, the closed outcome of a load request, the
 * search-engine query prefixes, the player (current track, position, queue)
 * and the registry of player contexts keyed by guild id.
 *
 * The effects that travel over the network (stop, skip, queue messages) are
 * modelled as their effect on the player; the ones that can fail take the
 * failure as a parameter.
 */
module Lavalink {
  import opened Wrappers
  import Text

  /** The JSON stored in a track's `user_data`: the object `{"requester_id": n}` or anything else. */
  datatype Json = RequesterObject(requesterId: nat) | OtherJson

  datatype TrackInfo = TrackInfo(
    identifier: string,
    author: string,
    title: string,
    length: nat,
    sourceName: string,
    uri: Option<string>,
    artworkUrl: Option<string>,
    isrc: Option<string>)

  datatype Track = Track(encoded: string, info: TrackInfo, userData: Option<Json>)

  datatype PlaylistInfo = PlaylistInfo(name: string)

  /** Severity, message and cause reported by the server for a failed load or playback. */
  datatype TrackError = TrackError(severity: string, message: string, cause: string)

  /** `TrackLoadData`: what a load request carries. */
  datatype LoadData =
    | Single(track: Track)
    | Playlist(info: PlaylistInfo, tracks: seq<Track>)
    | Search(results: seq<Track>)
    | Failed(error: TrackError)

  datatype LoadType = TrackType | PlaylistType | SearchType | EmptyType | ErrorType

  /** The server's answer to `load_tracks`: a load type and optional data. */
  datatype LoadResponse = LoadResponse(loadType: LoadType, data: Option<LoadData>)

  /** An error-typed response as the server means to send it: with the error attached. */
  predicate WellFormed(r: LoadResponse) {
    r.loadType == ErrorType ==> r.data.Some? && r.data.value.Failed?
  }

  /** The search engines the bot uses. */
  datatype Engine = YouTube | Deezer | SoundCloud

  function EnginePrefix(e: Engine): string {
    match e
    case YouTube => "ytsearch:"
    case Deezer => "dzsearch:"
    case SoundCloud => "scsearch:"
  }

  /** `SearchEngines::to_query`: the engine's search prefix in front of the term. */
  function EngineQuery(e: Engine, term: string): (q: string)
    ensures Text.StartsWith(q, EnginePrefix(e)) && q[|EnginePrefix(e)|..] == term
  {
    EnginePrefix(e) + term
  }

  /** A track carrying the given user data, everything else as before. */
  function WithUserData(t: Track, data: Json): (r: Track)
    ensures r.userData == Some(data) && r.info == t.info && r.encoded == t.encoded
  {
    t.(userData := Some(data))
  }

  /** `TrackUserData::try_from(track)`: the requester id, if the user data decodes. */
  function DecodeRequester(t: Track): (r: Option<nat>)
    ensures r.Some? <==> (t.userData.Some? && t.userData.value.RequesterObject?)
  {
    match t.userData
    case Some(RequesterObject(id)) => Some(id)
    case _ => None
  }

  /** A player context: what is playing, where, and the queue behind it. */
  class Player {
    var current: Option<Track>
    var position: nat
    var queue: seq<Track>

    constructor ()
      ensures current == None && position == 0 && queue == []
    {
      current := None;
      position := 0;
      queue := [];
    }

    /** `queue.get_count()`. */
    method Count() returns (n: nat)
      ensures n == |queue|
    {
      n := |queue|;
    }

    /** `queue.get_track(index)`: the entry at a 0-based index, if there is one. */
    method GetTrack(index: int) returns (t: Option<Track>)
      ensures t.Some? <==> 0 <= index < |queue|
      ensures t.Some? ==> t.value == queue[index]
    {
      t := if 0 <= index < |queue| then Some(queue[index]) else None;
    }

    /** `queue.append(tracks)`: to the tail, in order. */
    method Append(tracks: seq<Track>)
      modifies this
      ensures queue == old(queue) + tracks
      ensures current == old(current) && position == old(position)
    {
      queue := queue + tracks;
    }

    /** `queue.push_to_back(track)`. */
    method PushToBack(t: Track)
      modifies this
      ensures queue == old(queue) + [t]
      ensures current == old(current) && position == old(position)
    {
      queue := queue + [t];
    }

    /** `queue.push_to_front(track)`; the message may fail to reach the player. */
    method PushToFront(t: Track, fails: bool) returns (ok: bool)
      modifies this
      ensures ok == !fails
      ensures queue == if ok then [t] + old(queue) else old(queue)
      ensures current == old(current) && position == old(position)
    {
      ok := !fails;
      if ok {
        queue := [t] + queue;
      }
    }

    /** `queue.swap(index, track)`: puts `track` in the slot `index`; out of range it does nothing. */
    method Swap(index: int, t: Track)
      modifies this
      ensures queue == if 0 <= index < |old(queue)| then old(queue)[index := t] else old(queue)
      ensures current == old(current) && position == old(position)
    {
      if 0 <= index < |queue| {
        queue := queue[index := t];
      }
    }

    /** `queue.replace(tracks)`: the whole queue at once. */
    method Replace(tracks: seq<Track>)
      modifies this
      ensures queue == tracks
      ensures current == old(current) && position == old(position)
    {
      queue := tracks;
    }

    /** `stop_now()`: nothing plays afterwards; the queue is left alone. */
    method StopNow(fails: bool) returns (ok: bool)
      modifies this
      ensures ok == !fails
      ensures current == if ok then None else old(current)
      ensures position == if ok then 0 else old(position)
      ensures queue == old(queue)
    {
      ok := !fails;
      if ok {
        current := None;
        position := 0;
      }
    }

    /** `skip()`: the queue head starts playing; with an empty queue playback stops. */
    method Skip(fails: bool) returns (ok: bool)
      modifies this
      ensures ok == !fails
      ensures !ok ==> current == old(current) && position == old(position) && queue == old(queue)
      ensures ok && old(queue) != [] ==> current == Some(old(queue)[0]) && queue == old(queue)[1..]
      ensures ok && old(queue) == [] ==> current == None && queue == []
      ensures ok ==> position == 0
    {
      ok := !fails;
      if ok {
        if queue != [] {
          current := Some(queue[0]);
          queue := queue[1..];
        } else {
          current := None;
        }
        position := 0;
      }
    }
  }

  /** The client's registry of player contexts, keyed by guild id. */
  class Client {
    var players: map<nat, Player>

    constructor ()
      ensures players == map[]
    {
      players := map[];
    }

    /** `leave`: the guild's player context is deleted; no other guild is affected. */
    method Leave(guild: nat)
      modifies this
      ensures players == old(players) - {guild}
    {
      players := players - {guild};
    }

    /** `create_player_context`: the guild gets a new, empty player context; no other guild is affected. */
    method CreatePlayer(guild: nat)
      modifies this
      ensures guild in players && fresh(players[guild])
      ensures players[guild].current == None && players[guild].queue == []
      ensures players == old(players)[guild := players[guild]]
    {
      var p := new Player();
      players := players[guild := p];
    }
  }
}
