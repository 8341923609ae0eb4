/**
 * src/commands.rs: the queue rules of the slash commands `play`, `queue`,
 * `search`, `shuffle` and `swap`, over a player whose queue is a sequence.
 */
module Commands {
  import opened Wrappers
  import opened Text
  import opened Lavalink
  import opened Util
  import opened Discord
  import opened Seqs
  import opened Messages

  // ---------------------------------------------------------------- play

  /** The query `play` loads: a term starting with "http" as it is, any other term as a YouTube search. */
  function PlayQuery(term: string): (q: string)
    ensures StartsWith(term, "http") ==> q == term
    ensures !StartsWith(term, "http") ==> StartsWith(q, "ytsearch:") && q[|"ytsearch:"|..] == term
  {
    if StartsWith(term, "http") then term else EngineQuery(YouTube, term)
  }

  /** What `play` does with the loaded data: tracks to enqueue (and the playlist), or a report of the answer. */
  datatype Picked = Picked(tracks: seq<Track>, playlist: Option<PlaylistInfo>) | Report

  /**
   * The match on the loaded data: a single track, the first search result (an
   * empty result list makes `x[0]` panic), every playlist track in order, or,
   * for anything else, a report and nothing enqueued.
   */
  function PickTracks(data: Option<LoadData>): (r: Outcome<Picked>)
    ensures r == Panicked <==> data.Some? && data.value.Search? && data.value.results == []
    ensures r.Returned? && r.value.Picked? && r.value.playlist.None? ==>
              |r.value.tracks| == 1 && data.Some? && (data.value.Single? || data.value.Search?)
    ensures data.Some? && data.value.Single? ==> r == Returned(Picked([data.value.track], None))
    ensures data.Some? && data.value.Search? && data.value.results != [] ==>
              r == Returned(Picked([data.value.results[0]], None))
    ensures data.Some? && data.value.Playlist? ==>
              r == Returned(Picked(data.value.tracks, Some(data.value.info)))
    ensures data.None? || data.value.Failed? ==> r == Returned(Report)
  {
    match data
    case Some(Single(t)) => Returned(Picked([t], None))
    case Some(Search(results)) => if results == [] then Panicked else Returned(Picked([results[0]], None))
    case Some(Playlist(info, tracks)) => Returned(Picked(tracks, Some(info)))
    case _ => Returned(Report)
  }

  /** The user data `play` writes: `{"requester_id": id}`. */
  function Tagged(t: Track, requester: nat): Track {
    WithUserData(t, RequesterObject(requester))
  }

  /** The tagging loop: every track gets the requester as its user data, in place. */
  method TagTracks(tracks: seq<Track>, requester: nat) returns (tagged: seq<Track>)
    ensures |tagged| == |tracks|
    ensures forall k :: 0 <= k < |tracks| ==> tagged[k] == Tagged(tracks[k], requester)
    ensures forall k :: 0 <= k < |tracks| ==>
              DecodeRequester(tagged[k]) == Some(requester) && tagged[k].info == tracks[k].info
  {
    tagged := tracks;
    for i := 0 to |tagged|
      invariant |tagged| == |tracks|
      invariant forall k :: 0 <= k < i ==> tagged[k] == Tagged(tracks[k], requester)
      invariant forall k :: i <= k < |tagged| ==> tagged[k] == tracks[k]
    {
      tagged := tagged[i := Tagged(tagged[i], requester)];
    }
  }

  /** What `play` says: that the queue is empty, the loaded answer, the playlist added or the track added. */
  datatype PlayReply = Silent | QueueEmpty | LoadReport(data: Option<LoadData>) | PlaylistAdded(name: string) | TrackAdded(embed: Embed)

  /** Whether `play` starts playback: nothing plays and the queue has a head. */
  predicate Idle(current: Option<Track>, queue: seq<Track>) {
    current.None? && queue != []
  }

  /**
   * `play`. Without a term it only restarts an idle player (or says the queue is
   * empty). With a term it loads `PlayQuery(term)` through `load`, picks the
   * tracks, announces them, tags them with the requester and appends them; a
   * player that has just joined is left to the join, one that was already
   * connected is started when idle. `playerFails` is a failing `get_player`,
   * which skips the idle check silently; `headFails` a failing `get_track(0)`,
   * which `is_ok_and` reads as an empty queue; `skipFails` a failing `skip`.
   */
  method Play(player: Player, term: Option<string>, hasJoined: bool, requester: nat,
              load: string -> Result<Option<LoadData>, string>, playerFails: bool, headFails: bool, skipFails: bool)
      returns (r: Outcome<PlayReply>)
    modifies player
    ensures term.None? ==>
              var idle := !playerFails && !headFails && Idle(old(player.current), old(player.queue));
              && (!idle ==> (r == Returned(if playerFails then Silent else QueueEmpty)
                             && player.queue == old(player.queue) && player.current == old(player.current)))
              && (idle && skipFails ==> r.Raised? && player.queue == old(player.queue) && player.current == old(player.current))
              && (idle && !skipFails ==> (r == Returned(Silent)
                             && player.current == Some(old(player.queue)[0]) && player.queue == old(player.queue)[1..]))
    ensures term.Some? && load(PlayQuery(term.value)).Err? ==>
              r == Raised(load(PlayQuery(term.value)).error) && player.queue == old(player.queue) && player.current == old(player.current)
    ensures term.Some? && load(PlayQuery(term.value)).Ok? ==>
              var data := load(PlayQuery(term.value)).value;
              && (PickTracks(data) == Panicked ==> r == Panicked && player.queue == old(player.queue) && player.current == old(player.current))
              && (PickTracks(data) == Returned(Report) ==>
                    (r == Returned(LoadReport(data)) && player.queue == old(player.queue) && player.current == old(player.current)))
              && (PickTracks(data).Returned? && PickTracks(data).value.Picked? ==>
                    var picked := PickTracks(data).value;
                    var queue := old(player.queue) + TaggedAll(picked.tracks, requester);
                    var starts := !hasJoined && !playerFails && !headFails && Idle(old(player.current), queue);
                    && (!starts ==> player.queue == queue && player.current == old(player.current))
                    && (starts && skipFails ==> r.Raised? && player.queue == queue && player.current == old(player.current))
                    && (starts && !skipFails ==> player.current == Some(queue[0]) && player.queue == queue[1..])
                    && (!(starts && skipFails) ==>
                          r == Returned(if picked.playlist.Some? then PlaylistAdded(picked.playlist.value.name)
                                        else TrackAdded(AddedToQueue(picked.tracks[0])))))
  {
    if term.None? {
      if playerFails {
        return Returned(Silent);
      }
      var head := player.GetTrack(0);
      if player.current.None? && !headFails && head.Some? {
        var ok := player.Skip(skipFails);
        if !ok {
          return Raised("failed to skip");
        }
        return Returned(Silent);
      }
      return Returned(QueueEmpty);
    }
    var query := PlayQuery(term.value);
    var loaded := load(query);
    if loaded.Err? {
      return Raised(loaded.error);
    }
    var picked := PickTracks(loaded.value);
    if picked == Panicked {
      return Panicked;
    }
    if picked.value.Report? {
      return Returned(LoadReport(loaded.value));
    }
    var tracks := picked.value.tracks;
    var reply := if picked.value.playlist.Some? then PlaylistAdded(picked.value.playlist.value.name)
                 else TrackAdded(AddedToQueue(tracks[0]));
    var tagged := TagTracks(tracks, requester);
    assert tagged == TaggedAll(tracks, requester);
    player.Append(tagged);
    if hasJoined {
      return Returned(reply);
    }
    if !playerFails {
      var head := player.GetTrack(0);
      if player.current.None? && !headFails && head.Some? {
        var ok := player.Skip(skipFails);
        if !ok {
          return Raised("failed to skip");
        }
      }
    }
    return Returned(reply);
  }

  /** The tracks tagged with the requester, in order. */
  function TaggedAll(tracks: seq<Track>, requester: nat): (r: seq<Track>)
    ensures |r| == |tracks|
    ensures forall k :: 0 <= k < |tracks| ==> r[k] == Tagged(tracks[k], requester)
  {
    seq(|tracks|, k requires 0 <= k < |tracks| => Tagged(tracks[k], requester))
  }

  // ---------------------------------------------------------------- queue

  /**
   * How `user_data.unwrap()["requester_id"]` is displayed: the id, or `null`,
   * which indexing JSON without that key gives.
   */
  function RequesterField(data: Json): (s: string)
    ensures data.RequesterObject? ==> s == NatToString(data.requesterId)
    ensures data.OtherJson? ==> s == "null"
  {
    match data
    case RequesterObject(id) => NatToString(id)
    case OtherJson => "null"
  }

  /** Every track carries user data, so no `unwrap` panics. */
  predicate AllCarryData(tracks: seq<Track>) {
    forall k :: 0 <= k < |tracks| ==> tracks[k].userData.Some?
  }

  /** The listing lines of `queue` as written, numbered from `first` on, with the displayed requester field. */
  function FieldListing(tracks: seq<Track>, first: nat): (r: seq<string>)
    requires AllCarryData(tracks)
    ensures |r| == |tracks|
    decreases |tracks|
  {
    if tracks == [] then []
    else
      assert tracks[0].userData.Some?;
      [QueueLine(first, tracks[0].info, RequesterField(tracks[0].userData.value))] + FieldListing(tracks[1..], first + 1)
  }

  /** Listing line `k` is numbered `first + k` and shows entry `k` with its requester field. */
  lemma {:induction false} FieldListingAt(tracks: seq<Track>, first: nat, k: nat)
    requires AllCarryData(tracks) && k < |tracks|
    ensures tracks[k].userData.Some?
    ensures FieldListing(tracks, first)[k] == QueueLine(first + k, tracks[k].info, RequesterField(tracks[k].userData.value))
    decreases k
  {
    if k > 0 {
      assert tracks[1..][k - 1] == tracks[k];
      FieldListingAt(tracks[1..], first + 1, k - 1);
    }
  }

  /**
   * The `queue` command's text: the listing of the first `min(count, 9)` entries
   * (an entry without user data panics at the `unwrap`), then the now-playing
   * line (the current track's `unwrap` panics the same way).
   */
  function QueueCommand(queue: seq<Track>, current: Option<Track>, position: nat,
                        playerError: Option<string>, countError: Option<string>): (r: Outcome<string>)
    ensures playerError.Some? ==> r == Raised(playerError.value)
    ensures playerError.None? && countError.Some? ==> r == Raised(countError.value)
    ensures r.Panicked? <==>
              && playerError.None? && countError.None?
              && (!AllCarryData(queue[..Min(|queue|, 9)]) || (current.Some? && current.value.userData.None?))
    ensures r.Returned? ==>
              && AllCarryData(queue[..Min(|queue|, 9)])
              && StartsWith(r.value, if current.None? then NothingPlaying
                                     else NowPlayingLine(current.value.info, position, RequesterField(current.value.userData.value)))
              && EndsWith(r.value, "\n\n" + Join(FieldListing(queue[..Min(|queue|, 9)], 1), "\n"))
  {
    if playerError.Some? then Raised(playerError.value)
    else if countError.Some? then Raised(countError.value)
    else
      var listed := queue[..Min(|queue|, 9)];
      if !AllCarryData(listed) then Panicked
      else
        var lines := FieldListing(listed, 1);
        match current
        case None => Returned(Compose(NothingPlaying, lines))
        case Some(t) =>
          if t.userData.None? then Panicked
          else Returned(Compose(NowPlayingLine(t.info, position, RequesterField(t.userData.value)), lines))
  }

  /**
   * The listing shows at most nine entries, line `k` numbered `k + 1` and ending
   * with the requester field; as written, `>` closes the mention only when the
   * entry has a URI.
   */
  lemma QueueCommandNumbered(queue: seq<Track>)
    requires AllCarryData(queue[..Min(|queue|, 9)])
    ensures var lines := FieldListing(queue[..Min(|queue|, 9)], 1);
            && |lines| == Min(|queue|, 9) && |lines| <= 9
            && forall k :: 0 <= k < |lines| ==>
                 && queue[k].userData.Some?
                 && StartsWith(lines[k], NatToString(k + 1) + " -> ")
                 && EndsWith(lines[k], "<@!" + RequesterField(queue[k].userData.value)
                                       + (if queue[k].info.uri.Some? then ">" else ""))
  {
    var listed := queue[..Min(|queue|, 9)];
    forall k | 0 <= k < |listed|
      ensures queue[k].userData.Some?
      ensures FieldListing(listed, 1)[k] == QueueLine(k + 1, queue[k].info, RequesterField(queue[k].userData.value))
    {
      FieldListingAt(listed, 1, k);
      assert listed[k] == queue[k];
    }
  }

  // ---------------------------------------------------------------- swap

  /** What `swap` says: the largest index allowed, that the indexes are the same, or that it swapped. */
  datatype SwapReply = MaxIndex(len: nat) | SameIndexes | Swapped

  /** The queue with the entries at slots `i` and `j` exchanged. */
  function Exchange(queue: seq<Track>, i: nat, j: nat): (r: seq<Track>)
    requires i < |queue| && j < |queue|
    ensures |r| == |queue| && r[i] == queue[j] && r[j] == queue[i]
    ensures forall k :: 0 <= k < |queue| && k != i && k != j ==> r[k] == queue[k]
  {
    queue[i := queue[j]][j := queue[i]]
  }

  /**
   * `swap` as written: after the range and equality checks it reads the entry at
   * `index1 - 1` and the one at `index1 - 2` (where `index2 - 1` was meant),
   * writes the second into slot `index1 - 1` and the first into slot
   * `index2 - 1`. A `usize` subtraction below zero panics: an `index1` of 0 or 1
   * before anything is written, an `index2` of 0 after the first write.
   */
  function SwapAsWritten(queue: seq<Track>, index1: nat, index2: nat): (r: (Outcome<SwapReply>, seq<Track>))
    ensures index1 > |queue| || index2 > |queue| ==> r == (Returned(MaxIndex(|queue|)), queue)
    ensures index1 <= |queue| && index2 <= |queue| && index1 == index2 ==> r == (Returned(SameIndexes), queue)
    ensures index1 <= |queue| && index2 <= |queue| && index1 != index2 && index1 < 2 ==> r == (Panicked, queue)
    ensures index1 <= |queue| && index2 <= |queue| && 2 <= index1 && index2 == 0 ==>
              r == (Panicked, queue[index1 - 1 := queue[index1 - 2]])
    ensures r.0 == Returned(Swapped) ==>
              && 2 <= index1 <= |queue| && 1 <= index2 <= |queue| && index1 != index2
              && |r.1| == |queue|
              && r.1[index2 - 1] == queue[index1 - 1] && r.1[index1 - 1] == queue[index1 - 2]
              && forall k :: 0 <= k < |queue| && k != index1 - 1 && k != index2 - 1 ==> r.1[k] == queue[k]
  {
    var len := |queue|;
    if index1 > len || index2 > len then (Returned(MaxIndex(len)), queue)
    else if index1 == index2 then (Returned(SameIndexes), queue)
    else if index1 < 2 then (Panicked, queue)
    else
      var track1 := queue[index1 - 1];
      var track2 := queue[index1 - 2];
      var written := queue[index1 - 1 := track2];
      if index2 == 0 then (Panicked, written)
      else (Returned(Swapped), written[index2 - 1 := track1])
  }

  /** Swapping entries 3 and 1 of `[a, b, c]` as written leaves `[c, b, b]`: `a` is lost and `b` doubled. */
  lemma SwapAsWrittenLosesTrack(a: Track, b: Track, c: Track)
    requires a != b
    ensures SwapAsWritten([a, b, c], 3, 1) == (Returned(Swapped), [c, b, b])
    ensures multiset([c, b, b]) != multiset([a, b, c])
  {
    var q := [a, b, c];
    assert q[2 := q[1]][0 := q[2]] == [c, b, b];
    assert a !in multiset([c, b, b]) || a == c;
    if a == c {
      assert multiset([c, b, b])[b] == 2;
    }
  }

  /** The written swap exchanges the entries only when the entry before `index1` is the one at `index2`. */
  lemma SwapAsWrittenExchangesOnlyByChance(queue: seq<Track>, index1: nat, index2: nat)
    requires SwapAsWritten(queue, index1, index2).0 == Returned(Swapped)
    ensures SwapAsWritten(queue, index1, index2).1 == Exchange(queue, index1 - 1, index2 - 1)
            <==> queue[index1 - 2] == queue[index2 - 1]
  {
    var r := SwapAsWritten(queue, index1, index2).1;
    var e := Exchange(queue, index1 - 1, index2 - 1);
    if queue[index1 - 2] == queue[index2 - 1] {
      assert forall k :: 0 <= k < |queue| ==> r[k] == e[k];
    } else {
      assert r[index1 - 1] != e[index1 - 1];
    }
  }

  /**
   * `swap` with the second entry read at `index2 - 1`: out-of-range and equal
   * indexes are refused, an index of 0 panics before anything is written, and
   * otherwise the two entries trade places.
   */
  function SwapFixed(queue: seq<Track>, index1: nat, index2: nat): (r: (Outcome<SwapReply>, seq<Track>))
    ensures index1 > |queue| || index2 > |queue| ==> r == (Returned(MaxIndex(|queue|)), queue)
    ensures r.0 != Returned(Swapped) ==> r.1 == queue
    ensures r.0 == Returned(Swapped) <==> 1 <= index1 <= |queue| && 1 <= index2 <= |queue| && index1 != index2
    ensures r.0 == Returned(Swapped) ==> r.1 == Exchange(queue, index1 - 1, index2 - 1)
  {
    var len := |queue|;
    if index1 > len || index2 > len then (Returned(MaxIndex(len)), queue)
    else if index1 == index2 then (Returned(SameIndexes), queue)
    else if index1 == 0 || index2 == 0 then (Panicked, queue)
    else
      var track1 := queue[index1 - 1];
      var track2 := queue[index2 - 1];
      (Returned(Swapped), queue[index1 - 1 := track2][index2 - 1 := track1])
  }

  /** The corrected swap keeps every track: same length, same multiset. */
  lemma SwapFixedPermutes(queue: seq<Track>, index1: nat, index2: nat)
    ensures |SwapFixed(queue, index1, index2).1| == |queue|
    ensures multiset(SwapFixed(queue, index1, index2).1) == multiset(queue)
  {
    var r := SwapFixed(queue, index1, index2);
    if r.0 == Returned(Swapped) {
      var i, j := index1 - 1, index2 - 1;
      var once := queue[i := queue[j]];
      assert multiset(once) == multiset(queue) - multiset{queue[i]} + multiset{queue[j]};
      assert multiset(once[j := queue[i]]) == multiset(once) - multiset{once[j]} + multiset{queue[i]};
    }
  }

  /** Swapping the same two entries twice gives the queue back. */
  lemma SwapFixedInvolution(queue: seq<Track>, index1: nat, index2: nat)
    requires SwapFixed(queue, index1, index2).0 == Returned(Swapped)
    ensures SwapFixed(SwapFixed(queue, index1, index2).1, index1, index2) == (Returned(Swapped), queue)
  {
    var once := SwapFixed(queue, index1, index2).1;
    assert |once| == |queue|;
    var twice := SwapFixed(once, index1, index2).1;
    assert SwapFixed(once, index1, index2).0 == Returned(Swapped);
    assert twice == Exchange(once, index1 - 1, index2 - 1);
    assert forall k :: 0 <= k < |queue| ==> twice[k] == queue[k];
    assert twice == queue;
  }

  /**
   * The `swap` command on the player, as written. `countError`, `firstGetError`,
   * `secondGetError`, `firstWriteError` and `secondWriteError` are what
   * `get_count`, the two `get_track` calls and the two `swap` writes raise
   * through `?`, when they fail. Each index is computed just before its call, so
   * `index1 - 1` panics for 0 before the first read, `index1 - 2` for 1 before the
   * second, and `index2 - 1` for 0 after the first write.
   */
  method SwapCommand(player: Player, index1: nat, index2: nat, countError: Option<string>,
                     firstGetError: Option<string>, secondGetError: Option<string>,
                     firstWriteError: Option<string>, secondWriteError: Option<string>)
    returns (r: Outcome<SwapReply>)
    modifies player
    ensures countError.Some? ==> r == Raised(countError.value) && player.queue == old(player.queue)
    ensures countError.None? && firstGetError.None? && secondGetError.None?
            && firstWriteError.None? && secondWriteError.None? ==>
              (r, player.queue) == SwapAsWritten(old(player.queue), index1, index2)
    ensures countError.None? && (index1 > |old(player.queue)| || index2 > |old(player.queue)| || index1 == index2) ==>
              (r, player.queue) == SwapAsWritten(old(player.queue), index1, index2)
    ensures countError.None? && index1 <= |old(player.queue)| && index2 <= |old(player.queue)| && index1 != index2 ==>
              && (index1 == 0 ==> r == Panicked && player.queue == old(player.queue))
              && (index1 >= 1 && firstGetError.Some? ==> r == Raised(firstGetError.value) && player.queue == old(player.queue))
              && (index1 == 1 && firstGetError.None? ==> r == Panicked && player.queue == old(player.queue))
              && (index1 >= 2 && firstGetError.None? && secondGetError.Some? ==>
                    r == Raised(secondGetError.value) && player.queue == old(player.queue))
              && (index1 >= 2 && firstGetError.None? && secondGetError.None? && firstWriteError.Some? ==>
                    r == Raised(firstWriteError.value) && player.queue == old(player.queue))
              && (index1 >= 2 && firstGetError.None? && secondGetError.None? && firstWriteError.None? ==>
                    && (index2 == 0 ==> r == Panicked)
                    && (index2 >= 1 && secondWriteError.Some? ==> r == Raised(secondWriteError.value))
                    && (index2 == 0 || secondWriteError.Some? ==>
                          player.queue == old(player.queue)[index1 - 1 := old(player.queue)[index1 - 2]]))
    ensures player.current == old(player.current) && player.position == old(player.position)
  {
    if countError.Some? {
      return Raised(countError.value);
    }
    var len := player.Count();
    if index1 > len || index2 > len {
      return Returned(MaxIndex(len));
    } else if index1 == index2 {
      return Returned(SameIndexes);
    }
    if index1 == 0 {
      return Panicked;
    }
    if firstGetError.Some? {
      return Raised(firstGetError.value);
    }
    var track1 := player.GetTrack(index1 - 1);
    if index1 == 1 {
      return Panicked;
    }
    if secondGetError.Some? {
      return Raised(secondGetError.value);
    }
    var track2 := player.GetTrack(index1 - 2);
    if firstWriteError.Some? {
      return Raised(firstWriteError.value);
    }
    player.Swap(index1 - 1, track2.value);
    if index2 == 0 {
      return Panicked;
    }
    if secondWriteError.Some? {
      return Raised(secondWriteError.value);
    }
    player.Swap(index2 - 1, track1.value);
    return Returned(Swapped);
  }

  /**
   * The `swap` command on the player as it was meant to be: the second entry is
   * read at `index2 - 1` and both indexes are checked before anything is read.
   * `countError`, `getError`, `firstWriteError` and `secondWriteError` are what
   * `get_count`, either `get_track` and the two `swap` writes raise through `?`,
   * when they fail: a failure before the second write leaves the queue as it
   * was, a failing second write leaves only the first.
   */
  method SwapCommandFixed(player: Player, index1: nat, index2: nat, countError: Option<string>, getError: Option<string>,
                          firstWriteError: Option<string>, secondWriteError: Option<string>)
    returns (r: Outcome<SwapReply>)
    modifies player
    ensures countError.Some? ==> r == Raised(countError.value) && player.queue == old(player.queue)
    ensures countError.None? && SwapFixed(old(player.queue), index1, index2).0 != Returned(Swapped) ==>
              (r, player.queue) == SwapFixed(old(player.queue), index1, index2)
    ensures countError.None? && SwapFixed(old(player.queue), index1, index2).0 == Returned(Swapped) ==>
              && (getError.Some? ==> r == Raised(getError.value) && player.queue == old(player.queue))
              && (getError.None? && firstWriteError.Some? ==>
                    r == Raised(firstWriteError.value) && player.queue == old(player.queue))
              && (getError.None? && firstWriteError.None? && secondWriteError.Some? ==>
                    && r == Raised(secondWriteError.value)
                    && player.queue == old(player.queue)[index1 - 1 := old(player.queue)[index2 - 1]])
              && (getError.None? && firstWriteError.None? && secondWriteError.None? ==>
                    (r, player.queue) == SwapFixed(old(player.queue), index1, index2))
    ensures player.current == old(player.current) && player.position == old(player.position)
  {
    if countError.Some? {
      return Raised(countError.value);
    }
    var len := player.Count();
    if index1 > len || index2 > len {
      return Returned(MaxIndex(len));
    } else if index1 == index2 {
      return Returned(SameIndexes);
    }
    if index1 == 0 || index2 == 0 {
      return Panicked;
    }
    if getError.Some? {
      return Raised(getError.value);
    }
    var track1 := player.GetTrack(index1 - 1);
    var track2 := player.GetTrack(index2 - 1);
    if firstWriteError.Some? {
      return Raised(firstWriteError.value);
    }
    player.Swap(index1 - 1, track2.value);
    if secondWriteError.Some? {
      return Raised(secondWriteError.value);
    }
    player.Swap(index2 - 1, track1.value);
    return Returned(Swapped);
  }

  // ---------------------------------------------------------------- search

  /** The engines `search` asks, in order. */
  const SearchEngines: seq<Engine> := [YouTube, Deezer, SoundCloud]

  /** One query per engine, in engine order. */
  function SearchQueries(term: string): (queries: seq<string>)
    ensures |queries| == |SearchEngines|
    ensures forall k :: 0 <= k < |SearchEngines| ==> queries[k] == EngineQuery(SearchEngines[k], term)
  {
    [EngineQuery(YouTube, term), EngineQuery(Deezer, term), EngineQuery(SoundCloud, term)]
  }

  /** An answer `search` keeps: the request went through and carries data. */
  predicate Kept(answer: Result<LoadResponse, string>) {
    answer.Ok? && answer.value.data.Some?
  }

  /** The group a kept answer gives: its first three search results, or nothing for other data. */
  function GroupOf(data: LoadData): (group: seq<Track>)
    ensures |group| <= 3
    ensures data.Search? ==> group == data.results[..Min(3, |data.results|)]
    ensures !data.Search? ==> group == []
  {
    if data.Search? then data.results[..Min(3, |data.results|)] else []
  }

  /** How many answers are kept. */
  function KeptCount(answers: seq<Result<LoadResponse, string>>): nat
    decreases |answers|
  {
    if answers == [] then 0 else (if Kept(answers[0]) then 1 else 0) + KeptCount(answers[1..])
  }

  /** Counting the kept answers among the first `k` is the first answer's share plus the count among the rest. */
  lemma KeptCountOfPrefixes(answers: seq<Result<LoadResponse, string>>)
    requires answers != []
    ensures answers[..0] == []
    ensures forall k :: 0 < k <= |answers| ==>
              KeptCount(answers[..k]) == (if Kept(answers[0]) then 1 else 0) + KeptCount(answers[1..][..k - 1])
  {
    forall k | 0 < k <= |answers|
      ensures KeptCount(answers[..k]) == (if Kept(answers[0]) then 1 else 0) + KeptCount(answers[1..][..k - 1])
    {
      assert answers[..k][1..] == answers[1..][..k - 1];
      assert answers[..k][0] == answers[0];
    }
  }

  /** The result groups: failed and data-less answers are dropped, each kept one gives at most three tracks. */
  function SearchGroups(answers: seq<Result<LoadResponse, string>>): (groups: seq<seq<Track>>)
    ensures |groups| == KeptCount(answers) <= |answers|
    ensures forall g :: 0 <= g < |groups| ==> |groups[g]| <= 3
    ensures (forall k :: 0 <= k < |answers| ==> Kept(answers[k])) ==>
              |groups| == |answers| && forall k :: 0 <= k < |answers| ==> groups[k] == GroupOf(answers[k].value.data.value)
    ensures forall k :: 0 <= k < |answers| && Kept(answers[k]) ==>
              KeptCount(answers[..k]) < |groups| && groups[KeptCount(answers[..k])] == GroupOf(answers[k].value.data.value)
    decreases |answers|
  {
    if answers == [] then []
    else
      var rest := SearchGroups(answers[1..]);
      assert (forall k :: 0 <= k < |answers| ==> Kept(answers[k])) ==>
               forall k :: 0 <= k < |answers| - 1 ==> Kept(answers[1..][k]);
      KeptCountOfPrefixes(answers);
      assert forall k :: 0 < k < |answers| ==> answers[1..][k - 1] == answers[k];
      if Kept(answers[0]) then [GroupOf(answers[0].value.data.value)] + rest else rest
  }

  /** The button for the result at `index` of the flattened list: id `index`, label `index + 1`, the source's emoji. */
  function ButtonFor(index: nat, t: Track): Button {
    Button(NatToString(index), NatToString(index + 1), SourceToEmoji(t.info.sourceName))
  }

  /** The action rows for the first `n` groups: one row per group that has results. */
  function ButtonRows(groups: seq<seq<Track>>, n: nat): seq<seq<Button>>
    requires n <= |groups|
  {
    Rows(ButtonFor, groups, n)
  }

  /** The buttons of one group, numbered on from `first` (the loop that pushes them). */
  method RowButtons(group: seq<Track>, first: nat) returns (buttons: seq<Button>)
    ensures buttons == MapIndexed(ButtonFor, group, first)
  {
    buttons := [];
    ghost var all := MapIndexed(ButtonFor, group, first);
    var i := first;
    for j := 0 to |group|
      invariant buttons == all[..j]
      invariant i == first + j
    {
      MapIndexedAt(ButtonFor, group, first, j);
      TakeSnoc(all, j);
      buttons := buttons + [ButtonFor(i, group[j])];
      i := i + 1;
    }
    assert all[..|group|] == all;
  }

  /** The nested loop of `search`: a running index across the groups, a row for each group with results. */
  method SearchButtons(groups: seq<seq<Track>>) returns (rows: seq<seq<Button>>)
    ensures rows == ButtonRows(groups, |groups|)
  {
    rows := [];
    var i: nat := 0;
    for g := 0 to |groups|
      invariant rows == ButtonRows(groups, g)
      invariant i == Offset(groups, g)
    {
      var buttons := RowButtons(groups[g], i);
      if buttons != [] {
        rows := rows + [buttons];
      }
      OffsetNext(groups, g);
      i := i + |groups[g]|;
    }
  }

  /**
   * The track a pressed button selects: its custom id parsed as a number, then
   * that place of the flattened results. A custom id that is not a number, or
   * one past the results, panics at the `unwrap`.
   */
  function SelectedTrack(groups: seq<seq<Track>>, customId: string): (r: Outcome<Track>)
    ensures r.Returned? <==> customId != [] && AllDigits(customId) && ParseNat(customId) < |Flatten(groups)|
    ensures r.Returned? ==> r.value == Flatten(groups)[ParseNat(customId)]
  {
    if customId != [] && AllDigits(customId) && ParseNat(customId) < |Flatten(groups)| then
      Returned(Flatten(groups)[ParseNat(customId)])
    else
      Panicked
  }

  /** Button `k` of the message, counting across the rows, is the button for the `k`-th result. */
  lemma ButtonAt(groups: seq<seq<Track>>, g: nat, j: nat)
    requires g < |groups| && j < |groups[g]|
    ensures var k := Offset(groups, g) + j;
            && k < |Flatten(groups)| && Flatten(groups)[k] == groups[g][j]
            && k < |Flatten(ButtonRows(groups, |groups|))|
            && Flatten(ButtonRows(groups, |groups|))[k] == ButtonFor(k, groups[g][j])
  {
    var k := Offset(groups, g) + j;
    FlattenAt(groups, g, j);
    RowsFlatten(ButtonFor, groups, |groups|);
    assert groups[..|groups|] == groups;
    MapIndexedAt(ButtonFor, Flatten(groups), 0, k);
  }

  /**
   * Pressing that button selects result `j` of group `g`; it is labelled
   * `k + 1`, the number the same result carries in the search-results text.
   */
  lemma PressedButtonSelects(groups: seq<seq<Track>>, g: nat, j: nat)
    requires g < |groups| && j < |groups[g]|
    ensures var k := Offset(groups, g) + j;
            && k < |Flatten(ButtonRows(groups, |groups|))|
            && var b := Flatten(ButtonRows(groups, |groups|))[k];
            && SelectedTrack(groups, b.customId) == Returned(groups[g][j])
            && b.caption == NatToString(k + 1)
            && b.emoji == SourceToEmoji(groups[g][j].info.sourceName)
            && GroupLines(groups[g], Offset(groups, g) + 1)[j] == EntryLine(groups[g][j], k + 1)
  {
    var k := Offset(groups, g) + j;
    ButtonAt(groups, g, j);
    ParseNatToString(k);
    SearchNumbering(groups, g, j);
  }

  /** What `search` leaves behind: the message with its rows, and the "added to queue" embed once a button is pressed. */
  datatype SearchReply = SearchReply(results: Embed, rows: seq<seq<Button>>, added: Option<Embed>)

  /**
   * `search`: one search per engine through `load`, the results embed and its
   * buttons, then the pressed button's track (`pressed` is its custom id, `None`
   * when sixty seconds pass without a press) goes to the back of the queue.
   */
  method SearchCommand(player: Player, term: string, load: string -> Result<LoadResponse, string>,
                       pressed: Option<string>) returns (r: Outcome<SearchReply>)
    modifies player
    ensures var groups := SearchGroups([load(EngineQuery(YouTube, term)), load(EngineQuery(Deezer, term)),
                                        load(EngineQuery(SoundCloud, term))]);
            var shown := EmptyEmbed.(description := Some(SearchText(groups, |groups|)));
            && (pressed.None? ==> r == Returned(SearchReply(shown, ButtonRows(groups, |groups|), None))
                                  && player.queue == old(player.queue))
            && (pressed.Some? && SelectedTrack(groups, pressed.value).Panicked? ==>
                  r == Panicked && player.queue == old(player.queue))
            && (pressed.Some? && SelectedTrack(groups, pressed.value).Returned? ==>
                  var t := SelectedTrack(groups, pressed.value).value;
                  && r == Returned(SearchReply(shown, ButtonRows(groups, |groups|), Some(AddedToQueue(t))))
                  && player.queue == old(player.queue) + [t])
    ensures player.current == old(player.current) && player.position == old(player.position)
  {
    var queries := SearchQueries(term);
    var answers := [load(queries[0]), load(queries[1]), load(queries[2])];
    var groups := SearchGroups(answers);
    var shown := SearchResults(groups);
    var rows := SearchButtons(groups);
    if pressed.None? {
      return Returned(SearchReply(shown, rows, None));
    }
    var selected := SelectedTrack(groups, pressed.value);
    if selected.Panicked? {
      return Panicked;
    }
    player.PushToBack(selected.value);
    return Returned(SearchReply(shown, rows, Some(AddedToQueue(selected.value))));
  }

  // ---------------------------------------------------------------- shuffle

  /** `s` with the entries at `i` and `j` exchanged. */
  function SwapAt<T>(s: seq<T>, i: nat, j: nat): (r: seq<T>)
    requires i < |s| && j < |s|
    ensures |r| == |s|
  {
    s[i := s[j]][j := s[i]]
  }

  /** An exchange keeps every entry, each as often. */
  lemma SwapAtPermutes<T>(s: seq<T>, i: nat, j: nat)
    requires i < |s| && j < |s|
    ensures multiset(SwapAt(s, i, j)) == multiset(s)
  {
    if i != j {
      assert multiset(s[i := s[j]]) == multiset(s) - multiset{s[i]} + multiset{s[j]};
    }
  }

  /** Step `k` of the shuffle exchanges entry `k` with the entry drawn among the first `k + 1`. */
  function Draw(pick: nat -> nat, k: nat): (j: nat)
    ensures j <= k
  {
    pick(k) % (k + 1)
  }

  /**
   * The steps `i`, `i + 1`, ..., `|s| - 1` of the Fisher-Yates shuffle that
   * `slice::shuffle` runs (as `partial_shuffle` over the whole slice): step `k`
   * exchanges entry `k` with entry `pick(k) % (k + 1)`, so `pick` stands for the
   * random numbers drawn.
   */
  function ShuffleFrom<T>(s: seq<T>, pick: nat -> nat, i: nat): seq<T>
    requires i <= |s|
    decreases |s| - i
  {
    if i == |s| then s else ShuffleFrom(SwapAt(s, i, Draw(pick, i)), pick, i + 1)
  }

  /** The shuffled order for the draws `pick`; a slice of fewer than two entries is left alone. */
  function Shuffled<T>(s: seq<T>, pick: nat -> nat): seq<T> {
    if |s| < 2 then s else ShuffleFrom(s, pick, 0)
  }

  /** The exchanges from step `i` on keep the length and every entry, each as often. */
  lemma {:induction false} ShuffleFromPermutes<T>(s: seq<T>, pick: nat -> nat, i: nat)
    requires i <= |s|
    ensures |ShuffleFrom(s, pick, i)| == |s| && multiset(ShuffleFrom(s, pick, i)) == multiset(s)
    decreases |s| - i
  {
    if i < |s| {
      var next := SwapAt(s, i, Draw(pick, i));
      SwapAtPermutes(s, i, Draw(pick, i));
      ShuffleFromPermutes(next, pick, i + 1);
    }
  }

  /** Whatever is drawn, the shuffle reorders the queue: same length, same tracks, each as often. */
  lemma ShuffledPermutes<T>(s: seq<T>, pick: nat -> nat)
    ensures |Shuffled(s, pick)| == |s| && multiset(Shuffled(s, pick)) == multiset(s)
  {
    if |s| >= 2 {
      ShuffleFromPermutes(s, pick, 0);
    }
  }

  /** The shuffle in place, from the first entry up to the last. */
  method Shuffle<T>(a: array<T>, pick: nat -> nat)
    modifies a
    ensures a[..] == Shuffled(old(a[..]), pick)
    ensures multiset(a[..]) == multiset(old(a[..]))
  {
    if a.Length < 2 {
      return;
    }
    ghost var target := Shuffled(a[..], pick);
    var i := 0;
    while i < a.Length
      invariant 0 <= i <= a.Length
      invariant ShuffleFrom(a[..], pick, i) == target
      decreases a.Length - i
    {
      var j := Draw(pick, i);
      ghost var before := a[..];
      a[i], a[j] := a[j], a[i];
      ghost var after := a[..];
      assert after == SwapAt(before, i, j);
      assert ShuffleFrom(before, pick, i) == ShuffleFrom(after, pick, i + 1);
      i := i + 1;
    }
    assert a[..] == target;
    ShuffledPermutes(old(a[..]), pick);
  }

  const ShuffledReply := "Queue shuffled"

  /**
   * `shuffle`: the queue is fetched (`fetchError` when that fails), shuffled
   * as a vector and put back with `replace` (`replaceError` when that fails).
   */
  method ShuffleCommand(player: Player, pick: nat -> nat, fetchError: Option<string>, replaceError: Option<string>)
    returns (r: Outcome<string>)
    modifies player
    ensures fetchError.Some? ==> r == Raised(fetchError.value) && player.queue == old(player.queue)
    ensures fetchError.None? && replaceError.Some? ==> r == Raised(replaceError.value) && player.queue == old(player.queue)
    ensures fetchError.None? && replaceError.None? ==>
              && r == Returned(ShuffledReply)
              && player.queue == Shuffled(old(player.queue), pick)
              && |player.queue| == |old(player.queue)|
              && multiset(player.queue) == multiset(old(player.queue))
    ensures player.current == old(player.current) && player.position == old(player.position)
  {
    if fetchError.Some? {
      return Raised(fetchError.value);
    }
    var queue := player.queue;
    var a := new Track[|queue|](k requires 0 <= k < |queue| => queue[k]);
    assert a[..] == queue;
    Shuffle(a, pick);
    ShuffledPermutes(queue, pick);
    if replaceError.Some? {
      return Raised(replaceError.value);
    }
    player.Replace(a[..]);
    return Returned(ShuffledReply);
  }
}
