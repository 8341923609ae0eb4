/**
 * src/player_controller.rs: the per-guild controller with its "alone since"
 * marker, and the watchdog loop that leaves the voice channel once the bot has
 * been alone for longer than the threshold.
 *
 * Time is an integer number of milliseconds. The two sleeps of the watchdog
 * advance it by fixed amounts; the checks themselves take no time. What the
 * watchdog observes on each check comes in as a `TickEnv`: how many members the
 * bot's voice channel has, and whether some other task (the `leave` and `play` commands)
 * deleted or re-created the player context just before the check.
 */
module PlayerControl {
  import opened Wrappers
  import opened Lavalink

  /** `sleep(Duration::from_secs(10))` before the first check. */
  const InitialDelay: int := 10_000
  /** `sleep(Duration::from_secs(3))` after every check. */
  const TickInterval: int := 3_000
  /** `TimeDelta::seconds(10)`: how long the bot may sit alone. */
  const AloneThreshold: int := 10_000

  /** The marker after `mark_alone` at `now`: set if unset, otherwise kept. */
  function Marked(marker: Option<int>, now: int): (m: Option<int>)
    ensures m.Some?
    ensures marker.Some? ==> m == marker
  {
    if marker.None? then Some(now) else marker
  }

  /** `is_alone_for(delta)` at `now`: a marker exists and lies strictly more than `delta` back. */
  predicate AloneFor(marker: Option<int>, delta: int, now: int) {
    marker.Some? && delta < now - marker.value
  }

  /** A second `mark_alone` keeps the first timestamp. */
  lemma MarkKeepsFirst(marker: Option<int>, t1: int, t2: int)
    ensures Marked(Marked(marker, t1), t2) == Marked(marker, t1)
  {
  }

  class PlayerController {
    const guild: nat
    var aloneSince: Option<int>

    constructor (guild: nat)
      ensures this.guild == guild && aloneSince == None
    {
      this.guild := guild;
      aloneSince := None;
    }

    /** `mark_alone`: records `now` only when no marker is set. */
    method MarkAlone(now: int)
      modifies this
      ensures aloneSince == Marked(old(aloneSince), now)
    {
      if aloneSince.None? {
        aloneSince := Some(now);
      }
    }

    /** `reset_alone`: the marker is cleared whatever it was. */
    method ResetAlone()
      modifies this
      ensures aloneSince == None
    {
      aloneSince := None;
    }

    /** `is_alone_for`: false without a marker, else whether `now - marker` strictly exceeds `delta`. */
    method IsAloneFor(delta: int, now: int) returns (alone: bool)
      ensures aloneSince.None? ==> !alone
      ensures aloneSince.Some? ==> (alone <==> now - aloneSince.value > delta)
    {
      alone := match aloneSince
        case None => false
        case Some(ts) => delta < now - ts;
    }
  }

  // ---------------------------------------------------------------- one check of the watchdog

  datatype Action = Reset | Leave | Mark

  /** The branch a check takes, given the member count of the bot's channel. */
  function Decide(members: nat, marker: Option<int>, now: int): (a: Action)
    ensures members > 1 <==> a == Reset
    ensures a == Leave ==> marker.Some? && now - marker.value > AloneThreshold
    ensures members <= 1 && AloneFor(marker, AloneThreshold, now) ==> a == Leave
  {
    if members > 1 then Reset
    else if AloneFor(marker, AloneThreshold, now) then Leave
    else Mark
  }

  /** The marker after a check that took `a`. */
  function NextMarker(a: Action, marker: Option<int>, now: int): (m: Option<int>)
    ensures a == Reset ==> m == None
    ensures a == Mark ==> m.Some?
  {
    match a
    case Reset => None
    case Leave => marker
    case Mark => Marked(marker, now)
  }

  /**
   * What other tasks did to the guild's player context since the previous check:
   * nothing, deleted it (`leave`), or deleted it and created a fresh one (`leave`
   * followed by `play`, which joins anew with a controller of its own).
   */
  datatype Presence = Unchanged | Removed | Recreated

  /** Whether a player context exists at the check, given whether one existed before. */
  function PresentAfter(present: bool, change: Presence): bool {
    match change
    case Unchanged => present
    case Removed => false
    case Recreated => true
  }

  /** What the bot observes at one check. */
  datatype TickEnv = TickEnv(change: Presence, members: nat)

  /** One pass of the loop: it either breaks or takes an action (then sleeps). */
  datatype TickRecord = Exited(at: int) | Acted(at: int, action: Action) {
    function Time(): int {
      match this
      case Exited(t) => t
      case Acted(t, _) => t
    }

    predicate IsLeave() {
      Acted? && action == Leave
    }
  }

  /**
   * The passes the watchdog makes over the observations `env`, starting at time
   * `now` with the player context `present` or not and the marker `marker`.
   */
  function Trace(present: bool, marker: Option<int>, now: int, env: seq<TickEnv>): seq<TickRecord>
    decreases |env|
  {
    if env == [] then []
    else if !PresentAfter(present, env[0].change) then [Exited(now)]
    else
      var a := Decide(env[0].members, marker, now);
      [Acted(now, a)] + Trace(a != Leave, NextMarker(a, marker, now), now + TickInterval, env[1..])
  }

  /** Whether the guild has a player context, and the controller's marker, once the watchdog is done with `env`. */
  function Final(present: bool, marker: Option<int>, now: int, env: seq<TickEnv>): (bool, Option<int>)
    decreases |env|
  {
    if env == [] then (present, marker)
    else if !PresentAfter(present, env[0].change) then (false, marker)
    else
      var a := Decide(env[0].members, marker, now);
      Final(a != Leave, NextMarker(a, marker, now), now + TickInterval, env[1..])
  }

  /** What another task does to the guild's player context before a check; other guilds are untouched. */
  method ApplyChange(client: Client, guild: nat, change: Presence)
    modifies client
    ensures (guild in client.players) == PresentAfter(guild in old(client.players), change)
    ensures client.players - {guild} == old(client.players) - {guild}
  {
    match change {
      case Unchanged =>
      case Removed =>
        client.Leave(guild);
      case Recreated =>
        client.Leave(guild);
        client.CreatePlayer(guild);
    }
  }

  /** The body of one pass with a player context present: reset, leave or mark, as `Decide` says. */
  method Check(ctrl: PlayerController, client: Client, members: nat, now: int) returns (action: Action)
    requires ctrl.guild in client.players
    modifies ctrl, client
    ensures action == Decide(members, old(ctrl.aloneSince), now)
    ensures ctrl.aloneSince == NextMarker(action, old(ctrl.aloneSince), now)
    ensures (ctrl.guild in client.players) == (action != Leave)
    ensures client.players - {ctrl.guild} == old(client.players) - {ctrl.guild}
  {
    if members > 1 {
      ctrl.ResetAlone();
      action := Reset;
    } else {
      var alone := ctrl.IsAloneFor(AloneThreshold, now);
      if alone {
        client.Leave(ctrl.guild);
        action := Leave;
      } else {
        ctrl.MarkAlone(now);
        action := Mark;
      }
    }
  }

  /**
   * `player_watchdog`: wait, then check every few seconds until the player
   * context is gone. The loop stops early when the observations run out.
   */
  method PlayerWatchdog(ctrl: PlayerController, client: Client, start: int, env: seq<TickEnv>)
      returns (trace: seq<TickRecord>)
    modifies ctrl, client
    ensures trace == Trace(ctrl.guild in old(client.players), old(ctrl.aloneSince), start + InitialDelay, env)
    ensures (ctrl.guild in client.players, ctrl.aloneSince)
            == Final(ctrl.guild in old(client.players), old(ctrl.aloneSince), start + InitialDelay, env)
    ensures client.players - {ctrl.guild} == old(client.players) - {ctrl.guild}
  {
    ghost var initial := Trace(ctrl.guild in client.players, ctrl.aloneSince, start + InitialDelay, env);
    ghost var last := Final(ctrl.guild in client.players, ctrl.aloneSince, start + InitialDelay, env);
    var now := start + InitialDelay;
    var i := 0;
    trace := [];
    while i < |env|
      invariant 0 <= i <= |env|
      invariant trace + Trace(ctrl.guild in client.players, ctrl.aloneSince, now, env[i..]) == initial
      invariant Final(ctrl.guild in client.players, ctrl.aloneSince, now, env[i..]) == last
      invariant client.players - {ctrl.guild} == old(client.players) - {ctrl.guild}
    {
      ghost var wasPresent := ctrl.guild in client.players;
      ghost var marker := ctrl.aloneSince;
      assert env[i..][0] == env[i] && env[i..][1..] == env[i + 1..];
      ApplyChange(client, ctrl.guild, env[i].change);
      if ctrl.guild !in client.players {
        assert Trace(wasPresent, marker, now, env[i..]) == [Exited(now)];
        trace := trace + [Exited(now)];
        return;
      }
      var action := Check(ctrl, client, env[i].members, now);
      assert Trace(wasPresent, marker, now, env[i..])
             == [Acted(now, action)] + Trace(action != Leave, ctrl.aloneSince, now + TickInterval, env[i + 1..]);
      assert Final(wasPresent, marker, now, env[i..])
             == Final(action != Leave, ctrl.aloneSince, now + TickInterval, env[i + 1..]);
      trace := trace + [Acted(now, action)];
      now := now + TickInterval;
      i := i + 1;
    }
  }

  // ---------------------------------------------------------------- properties of the loop

  /** The k-th pass happens `k` intervals after the first. */
  lemma {:induction false} TraceTimes(present: bool, marker: Option<int>, now: int, env: seq<TickEnv>)
    ensures |Trace(present, marker, now, env)| <= |env|
    ensures forall k :: 0 <= k < |Trace(present, marker, now, env)| ==>
              Trace(present, marker, now, env)[k].Time() == now + k * TickInterval
    decreases |env|
  {
    if env != [] && PresentAfter(present, env[0].change) {
      var a := Decide(env[0].members, marker, now);
      TraceTimes(a != Leave, NextMarker(a, marker, now), now + TickInterval, env[1..]);
    }
  }

  /**
   * The loop ends at the first pass without a player context, and a `leave` is
   * followed by that exit unless another task has created a new context meanwhile.
   */
  lemma {:induction false} TraceEnds(present: bool, marker: Option<int>, now: int, env: seq<TickEnv>)
    ensures |Trace(present, marker, now, env)| <= |env|
    ensures forall k :: 0 <= k < |Trace(present, marker, now, env)| - 1 ==>
              Trace(present, marker, now, env)[k].Acted?
    ensures forall k :: 0 <= k < |Trace(present, marker, now, env)| - 1 ==>
              (Trace(present, marker, now, env)[k].IsLeave() && !env[k + 1].change.Recreated? ==>
                 Trace(present, marker, now, env)[k + 1].Exited?)
    decreases |env|
  {
    if env != [] && PresentAfter(present, env[0].change) {
      var a := Decide(env[0].members, marker, now);
      var t := Trace(present, marker, now, env);
      var rest := Trace(a != Leave, NextMarker(a, marker, now), now + TickInterval, env[1..]);
      TraceEnds(a != Leave, NextMarker(a, marker, now), now + TickInterval, env[1..]);
      assert forall k :: 0 < k < |t| ==> t[k] == rest[k - 1];
      assert forall k :: 0 < k < |env| ==> env[k] == env[1..][k - 1];
      if a == Leave && env[1..] != [] && !env[1].change.Recreated? {
        assert rest == [Exited(now + TickInterval)];
      }
    }
  }

  /** Unless some other task re-creates the player context, `leave` is called at most once in a watchdog's life. */
  lemma AtMostOneLeave(present: bool, marker: Option<int>, now: int, env: seq<TickEnv>, j: nat, k: nat)
    requires forall i :: 0 <= i < |env| ==> !env[i].change.Recreated?
    requires j < k < |Trace(present, marker, now, env)|
    requires Trace(present, marker, now, env)[j].IsLeave()
    ensures !Trace(present, marker, now, env)[k].IsLeave()
  {
    var t := Trace(present, marker, now, env);
    TraceEnds(present, marker, now, env);
    assert t[j + 1].Exited?;
    assert k == j + 1;
  }

  /**
   * After its own `leave`, a watchdog whose guild gets a new player context runs
   * on with the marker it had: alone at the next check, it leaves again at once,
   * without waiting out the threshold for the new session.
   */
  lemma RejoinedAloneLeavesAtOnce(marker: Option<int>, now: int, env: seq<TickEnv>)
    requires |env| >= 2
    requires !env[0].change.Removed? && env[0].members <= 1 && AloneFor(marker, AloneThreshold, now)
    requires env[1].change.Recreated? && env[1].members <= 1
    ensures |Trace(true, marker, now, env)| >= 2
    ensures Trace(true, marker, now, env)[0] == Acted(now, Leave)
    ensures Trace(true, marker, now, env)[1] == Acted(now + TickInterval, Leave)
  {
    var rest := Trace(false, marker, now + TickInterval, env[1..]);
    assert env[1..][0] == env[1];
    assert rest[0] == Acted(now + TickInterval, Leave);
  }

  /**
   * With at least one observation, the guild keeps a player context at the end
   * exactly when the last pass acted without leaving; a last reset leaves no
   * marker and a last mark leaves one.
   */
  lemma {:induction false} FinalState(present: bool, marker: Option<int>, now: int, env: seq<TickEnv>)
    requires env != []
    ensures Trace(present, marker, now, env) != []
    ensures var t := Trace(present, marker, now, env);
            Final(present, marker, now, env).0 <==> t[|t| - 1].Acted? && !t[|t| - 1].IsLeave()
    ensures var t := Trace(present, marker, now, env);
            t[|t| - 1] == Acted(t[|t| - 1].Time(), Reset) ==> Final(present, marker, now, env).1 == None
    ensures var t := Trace(present, marker, now, env);
            t[|t| - 1] == Acted(t[|t| - 1].Time(), Mark) ==> Final(present, marker, now, env).1.Some?
    decreases |env|
  {
    if PresentAfter(present, env[0].change) && env[1..] != [] {
      var a := Decide(env[0].members, marker, now);
      var t := Trace(present, marker, now, env);
      var rest := Trace(a != Leave, NextMarker(a, marker, now), now + TickInterval, env[1..]);
      FinalState(a != Leave, NextMarker(a, marker, now), now + TickInterval, env[1..]);
      assert t[|t| - 1] == rest[|rest| - 1];
    }
  }

  /** No pass at or before `base + AloneThreshold` leaves when the marker is unset or at least `base`. */
  lemma {:induction false} NoEarlyLeave(present: bool, marker: Option<int>, now: int, env: seq<TickEnv>, base: int)
    requires now >= base
    requires marker.Some? ==> marker.value >= base
    ensures forall k :: 0 <= k < |Trace(present, marker, now, env)| ==>
              (now + k * TickInterval <= base + AloneThreshold ==> !Trace(present, marker, now, env)[k].IsLeave())
    decreases |env|
  {
    if env != [] && PresentAfter(present, env[0].change) {
      var a := Decide(env[0].members, marker, now);
      var t := Trace(present, marker, now, env);
      var rest := Trace(a != Leave, NextMarker(a, marker, now), now + TickInterval, env[1..]);
      NoEarlyLeave(a != Leave, NextMarker(a, marker, now), now + TickInterval, env[1..], base);
      forall k | 0 <= k < |t| && now + k * TickInterval <= base + AloneThreshold
        ensures !t[k].IsLeave()
      {
        if k > 0 {
          assert t[k] == rest[k - 1];
          assert now + TickInterval + (k - 1) * TickInterval == now + k * TickInterval;
        }
      }
    }
  }

  /** Starting unmarked, none of the first four checks leaves: the bot must be alone longer than ten seconds. */
  lemma FirstFourChecksNeverLeave(present: bool, now: int, env: seq<TickEnv>, k: nat)
    requires k < 4 && k < |Trace(present, None, now, env)|
    ensures !Trace(present, None, now, env)[k].IsLeave()
  {
    NoEarlyLeave(present, None, now, env, now);
    TraceTimes(present, None, now, env);
  }

  /** Alone from the first check on, the bot marks four times, leaves at the fifth check and then exits. */
  lemma AloneLeavesAtFifthCheck(now: int, env: seq<TickEnv>)
    requires |env| >= 6
    requires forall k :: 0 <= k < 5 ==> !env[k].change.Removed? && env[k].members <= 1
    requires !env[5].change.Recreated?
    ensures |Trace(true, None, now, env)| == 6
    ensures forall k :: 0 <= k < 4 ==> Trace(true, None, now, env)[k] == Acted(now + k * TickInterval, Mark)
    ensures Trace(true, None, now, env)[4] == Acted(now + 4 * TickInterval, Leave)
    ensures Trace(true, None, now, env)[5] == Exited(now + 5 * TickInterval)
  {
    var m := Some(now);
    assert env[1..][1..] == env[2..];
    assert env[2..][1..] == env[3..];
    assert env[3..][1..] == env[4..];
    assert env[4..][1..] == env[5..];
    var t5 := Trace(false, m, now + 15_000, env[5..]);
    assert t5 == [Exited(now + 15_000)];
    var t4 := Trace(true, m, now + 12_000, env[4..]);
    assert t4 == [Acted(now + 12_000, Leave)] + t5;
    var t3 := Trace(true, m, now + 9_000, env[3..]);
    assert t3 == [Acted(now + 9_000, Mark)] + t4;
    var t2 := Trace(true, m, now + 6_000, env[2..]);
    assert t2 == [Acted(now + 6_000, Mark)] + t3;
    var t1 := Trace(true, m, now + 3_000, env[1..]);
    assert t1 == [Acted(now + 3_000, Mark)] + t2;
    assert Trace(true, None, now, env) == [Acted(now, Mark)] + t1;
  }

  /** A check with company resets the marker and never leaves. */
  lemma CompanyResets(marker: Option<int>, now: int, members: nat)
    requires members > 1
    ensures Decide(members, marker, now) == Reset
    ensures NextMarker(Decide(members, marker, now), marker, now) == None
  {
  }
}
