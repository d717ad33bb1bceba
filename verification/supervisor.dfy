/**
 Supervision of one connector: a tick collects the exit of the running instance, asks for a restart of a
 degraded one, and starts what was asked for once the cooldown is over. Times are in nanoseconds.
 */
module Supervisor {
  import opened Basics

  const SECOND := 1_000_000_000
  const HOUR := 3600 * SECOND

  datatype Config = Config(grace: int, cooldown: int, maxPerHour: int)

  // Unset limits take their defaults.
  function Configured(cfg: Config): (c: Config)
    ensures c.grace > 0 && c.cooldown > 0 && c.maxPerHour > 0
    ensures (cfg.grace > 0 ==> c.grace == cfg.grace) && (cfg.cooldown > 0 ==> c.cooldown == cfg.cooldown)
    ensures cfg.maxPerHour > 0 ==> c.maxPerHour == cfg.maxPerHour
    ensures cfg == Config(0, 0, 0) ==> c == Config(5 * SECOND, 2 * SECOND, 3)
  {
    Config(if cfg.grace <= 0 then 5 * SECOND else cfg.grace,
           if cfg.cooldown <= 0 then 2 * SECOND else cfg.cooldown,
           if cfg.maxPerHour <= 0 then 3 else cfg.maxPerHour)
  }

  datatype Exit = Clean | Canceled | DeadlineExceeded | Failed

  datatype Health = NoReport | Report(degraded: bool, restartSuggested: bool)

  // `instance` names the channel on which the started instance will report its exit.
  datatype Connector = Connector(
    running: bool, requested: bool, startedAt: int, nextStartAt: int, restarts: seq<int>, instance: nat)

  // The times after the cutoff, in their order.
  function Within(times: seq<int>, cutoff: int): seq<int> {
    if times == [] then []
    else if times[|times| - 1] > cutoff then Within(times[..|times| - 1], cutoff) + [times[|times| - 1]]
    else Within(times[..|times| - 1], cutoff)
  }

  function AfterRequest(cfg: Config, c: Connector, now: int): Connector {
    var recent := Within(c.restarts, now - HOUR);
    if |recent| >= cfg.maxPerHour then c.(restarts := recent, requested := false)
    else c.(restarts := recent + [now], requested := true, nextStartAt := now + cfg.cooldown)
  }

  // `exit` is what the channel of the current instance holds, if anything.
  function AfterExit(cfg: Config, c: Connector, exit: Option<Exit>, down: bool, now: int): Connector {
    if !c.running || exit.None? then c else
    var stopped := c.(running := false);
    if down || c.requested || exit.value == Canceled || exit.value == DeadlineExceeded then stopped
    else AfterRequest(cfg, stopped, now)
  }

  function AfterCheck(cfg: Config, c: Connector, health: Health, now: int): Connector {
    if !c.running || c.requested || now - c.startedAt < cfg.grace || health.NoReport? then c
    else if !health.degraded || !health.restartSuggested then c
    else AfterRequest(cfg, c, now)
  }

  function Started(c: Connector, now: int): Connector {
    c.(running := true, startedAt := now, instance := c.instance + 1)
  }

  predicate Due(c: Connector, down: bool, now: int) {
    !c.running && c.requested && now >= c.nextStartAt && !down
  }

  function AfterStart(c: Connector, down: bool, now: int): Connector {
    if Due(c, down, now) then Started(c.(requested := false), now) else c
  }

  /// The supervisor's own loop body, on the fields and on the slice of restart times

  // Keeps the recent times in place: what is kept overwrites the front of the slice being read.
  method PruneRestarts(times: array<int>, count: nat, now: int) returns (kept: nat)
    requires count <= times.Length
    modifies times
    ensures kept <= count
    ensures times[..kept] == Within(old(times[..count]), now - HOUR)
  {
    kept := 0;
    var i := 0;
    while i < count
      invariant 0 <= kept <= i <= count
      invariant forall k :: i <= k < count ==> times[k] == old(times[..count])[k]
      invariant times[..kept] == Within(old(times[..count])[..i], now - HOUR)
    {
      assert old(times[..count])[..i + 1][..i] == old(times[..count])[..i];
      if times[i] > now - HOUR {
        times[kept] := times[i];
        kept := kept + 1;
      }
      i := i + 1;
    }
    assert old(times[..count])[..count] == old(times[..count]);
  }

  class SupervisedConnector {
    const cfg: Config
    var running: bool
    var requested: bool
    var startedAt: int
    var nextStartAt: int
    var times: array<int>
    var count: nat
    var instance: nat

    ghost predicate Valid()
      reads this
    {
      count <= times.Length
    }

    ghost function State(): Connector
      requires Valid()
      reads this, times
    {
      Connector(running, requested, startedAt, nextStartAt, times[..count], instance)
    }

    // The connector is started as soon as it is supervised.
    constructor (limits: Config, now: int)
      ensures Valid() && fresh(times) && cfg == Configured(limits)
      ensures State() == Connector(true, false, now, 0, [], 0)
    {
      cfg := Configured(limits);
      running, requested, startedAt, nextStartAt, instance := true, false, now, 0, 0;
      times, count := new int[0], 0;
    }

    method Append(now: int)
      requires Valid()
      modifies this, times
      ensures Valid() && (times == old(times) || fresh(times))
      ensures State() == old(State()).(restarts := old(State()).restarts + [now])
    {
      ghost var before := times[..count];
      if count == times.Length {
        var larger := new int[2 * count + 1];
        forall i | 0 <= i < count { larger[i] := times[i]; }
        times := larger;
      }
      assert times[..count] == before == old(State()).restarts;
      times[count] := now;
      count := count + 1;
      assert times[..count] == before + [now];
    }

    method RequestRestart(now: int) returns (granted: bool)
      requires Valid()
      modifies this, times
      ensures Valid() && (times == old(times) || fresh(times))
      ensures State() == AfterRequest(cfg, old(State()), now)
      ensures granted == State().requested
    {
      count := PruneRestarts(times, count, now);
      if count >= cfg.maxPerHour {
        requested := false;
        return false;
      }
      requested := true;
      nextStartAt := now + cfg.cooldown;
      Append(now);
      return true;
    }

    method CollectExit(exit: Option<Exit>, down: bool, now: int)
      requires Valid()
      modifies this, times
      ensures Valid() && (times == old(times) || fresh(times))
      ensures State() == AfterExit(cfg, old(State()), exit, down, now)
    {
      if !running || exit.None? { return; }
      running := false;
      if down || requested { return; }
      if exit.value != Canceled && exit.value != DeadlineExceeded {
        var _ := RequestRestart(now);
      }
    }

    method RestartIfDegraded(health: Health, now: int) returns (canceled: bool)
      requires Valid()
      modifies this, times
      ensures Valid() && (times == old(times) || fresh(times))
      ensures State() == AfterCheck(cfg, old(State()), health, now)
      ensures canceled == (State().requested && !old(State()).requested)
      ensures State() != old(State()) ==>
        && old(running) && !old(requested) && now - old(startedAt) >= cfg.grace
        && health == Report(true, true)
      ensures old(running) && !old(requested) && now - old(startedAt) >= cfg.grace && health == Report(true, true) ==>
        State() == AfterRequest(cfg, old(State()), now)
    {
      canceled := false;
      if !running || requested || now - startedAt < cfg.grace { return; }
      if health.NoReport? || !health.degraded || !health.restartSuggested { return; }
      canceled := RequestRestart(now);
    }

    method StartPending(down: bool, now: int) returns (started: bool)
      requires Valid()
      modifies this
      ensures Valid() && times == old(times)
      ensures State() == AfterStart(old(State()), down, now)
      ensures started <==> !old(running) && old(requested) && old(nextStartAt) <= now && !down
      ensures started ==> running && !requested && startedAt == now && instance == old(instance) + 1
      ensures !started ==> State() == old(State())
    {
      if running || !requested || now < nextStartAt || down { return false; }
      requested := false;
      startedAt, running, instance := now, true, instance + 1;
      return true;
    }

    // One tick for this connector.
    method Tick(exit: Option<Exit>, health: Health, down: bool, now: int)
      requires Valid()
      modifies this, times
      ensures Valid()
      ensures var collected := AfterExit(cfg, old(State()), exit, down, now);
        var checked := AfterCheck(cfg, collected, health, now);
        State() == AfterStart(checked, down, now)
    {
      CollectExit(exit, down, now);
      var _ := RestartIfDegraded(health, now);
      var _ := StartPending(down, now);
    }
  }

  /// Runs: the supervisor's steps at the times of its ticks, with instances ending whenever they like

  // `live` are the instances that have not ended, `ended` what the others reported; `starts`
  // and `grants` are history.
  datatype World = World(
    c: Connector, live: set<nat>, ended: map<nat, Exit>, down: bool, clock: int,
    starts: seq<int>, grants: seq<int>)

  datatype Event =
    | Collect(now: int)
    | Check(now: int, health: Health)
    | Start(now: int)
    | End(instance: nat, exit: Exit)
    | Shutdown

  function Begin(now: int): World {
    World(Connector(true, false, now, 0, [], 0), {0}, map[], false, now, [now], [])
  }

  predicate Enabled(w: World, e: Event) {
    match e
    case Collect(now) => now >= w.clock
    case Check(now, _) => now >= w.clock
    case Start(now) => now >= w.clock
    case End(instance, _) => instance in w.live
    case Shutdown => true
  }

  function Reported(w: World): Option<Exit> {
    if w.c.instance in w.ended then Some(w.ended[w.c.instance]) else None
  }

  // A restart was asked for in this step exactly when the flag went up.
  function Recorded(w: World, c: Connector, now: int): World {
    w.(c := c, clock := now, grants := if c.requested && !w.c.requested then w.grants + [now] else w.grants)
  }

  function Next(cfg: Config, w: World, e: Event): World
    requires Enabled(w, e)
  {
    match e
    case Collect(now) => Recorded(w, AfterExit(cfg, w.c, Reported(w), w.down, now), now)
    case Check(now, health) => Recorded(w, AfterCheck(cfg, w.c, health, now), now)
    case Start(now) =>
      var c := AfterStart(w.c, w.down, now);
      if Due(w.c, w.down, now) then w.(c := c, clock := now, live := w.live + {c.instance}, starts := w.starts + [now])
      else w.(clock := now)
    case End(instance, exit) => w.(live := w.live - {instance}, ended := w.ended[instance := exit])
    case Shutdown => w.(down := true)
  }

  ghost predicate Reaches(cfg: Config, w: World, events: seq<Event>, last: World)
    decreases |events|
  {
    if events == [] then last == w
    else Enabled(w, events[0]) && Reaches(cfg, Next(cfg, w, events[0]), events[1..], last)
  }

  /// Invariants

  // Only the running connector has an instance, and it has one.
  ghost predicate SingleInstance(w: World) {
    && w.live <= (if w.c.running then {w.c.instance} else {})
    && (forall i :: i in w.ended ==> i <= w.c.instance)
    && (w.c.running ==> (w.c.instance in w.live <==> w.c.instance !in w.ended))
  }

  // The restarts granted in the hour that ends at `x`, its first instant left out.
  function Window(grants: seq<int>, x: int): nat {
    if grants == [] then 0
    else Window(grants[..|grants| - 1], x) + (if x - HOUR < grants[|grants| - 1] <= x then 1 else 0)
  }

  ghost predicate Limited(cfg: Config, grants: seq<int>) {
    forall x :: Window(grants, x) <= cfg.maxPerHour
  }

  ghost predicate Recalls(w: World, cut: int) {
    cut <= w.clock - HOUR && w.c.restarts == Within(w.grants, cut)
  }

  // What is remembered of the grants is everything after some cutoff more than an hour old.
  ghost predicate Remembered(w: World) {
    && (exists cut :: Recalls(w, cut))
    && (forall k :: 0 <= k < |w.grants| ==> w.grants[k] <= w.clock)
  }

  // Every start but the first answers one grant, at least the cooldown after it.
  ghost predicate Answered(cfg: Config, w: World) {
    && |w.starts| + (if w.c.requested then 1 else 0) == 1 + |w.grants|
    && (forall k :: 0 <= k < |w.starts| ==> w.starts[k] <= w.clock)
    && (forall k :: 0 <= k < |w.grants| ==> w.starts[k] <= w.grants[k])
    && (forall k :: 0 <= k < |w.starts| - 1 ==> w.grants[k] + cfg.cooldown <= w.starts[k + 1])
    && (w.c.requested ==> |w.grants| > 0 && w.c.nextStartAt == w.grants[|w.grants| - 1] + cfg.cooldown)
  }

  ghost predicate Supervised(cfg: Config, w: World) {
    SingleInstance(w) && Limited(cfg, w.grants) && Remembered(w) && Answered(cfg, w)
  }

  lemma {:induction false} WithinWithin(times: seq<int>, cut: int, later: int)
    requires cut <= later
    ensures Within(Within(times, cut), later) == Within(times, later)
  {
    if times != [] {
      var front, last := times[..|times| - 1], times[|times| - 1];
      WithinWithin(front, cut, later);
      assert last > cut ==> (Within(front, cut) + [last])[..|Within(front, cut)|] == Within(front, cut);
    }
  }

  lemma {:induction false} WindowWithin(grants: seq<int>, x: int, now: int)
    requires now <= x
    ensures Window(grants, x) <= |Within(grants, now - HOUR)|
  {
    if grants != [] { WindowWithin(grants[..|grants| - 1], x, now); }
  }

  // A restart is granted only when the last hour holds fewer than allowed.
  lemma GrantLimited(cfg: Config, grants: seq<int>, now: int)
    requires Limited(cfg, grants) && |Within(grants, now - HOUR)| < cfg.maxPerHour
    ensures Limited(cfg, grants + [now])
  {
    forall x ensures Window(grants + [now], x) <= cfg.maxPerHour {
      assert (grants + [now])[..|grants|] == grants;
      if now <= x { WindowWithin(grants, x, now); }
    }
  }

  lemma WithinAppended(grants: seq<int>, now: int, cut: int)
    ensures now > cut ==> Within(grants + [now], cut) == Within(grants, cut) + [now]
  {
    assert (grants + [now])[..|grants|] == grants;
  }

  lemma RequestKeeps(cfg: Config, w: World, before: Connector, now: int)
    requires cfg.maxPerHour > 0 && cfg.cooldown > 0
    requires now >= w.clock && !w.c.requested && before.restarts == w.c.restarts
    requires Limited(cfg, w.grants) && Remembered(w)
    ensures var next := Recorded(w, AfterRequest(cfg, before, now), now);
      Limited(cfg, next.grants) && Remembered(next)
  {
    var cut :| Recalls(w, cut);
    WithinWithin(w.grants, cut, now - HOUR);
    var next := Recorded(w, AfterRequest(cfg, before, now), now);
    if |Within(w.grants, now - HOUR)| < cfg.maxPerHour {
      GrantLimited(cfg, w.grants, now);
      WithinAppended(w.grants, now, now - HOUR);
    }
    assert Recalls(next, now - HOUR);
  }

  lemma TimePasses(w: World, next: World)
    requires Remembered(w) && next.clock >= w.clock
    requires next.c.restarts == w.c.restarts && next.grants == w.grants
    ensures Remembered(next)
  {
    var cut :| Recalls(w, cut);
    assert Recalls(next, cut);
  }

  lemma StepSingle(cfg: Config, w: World, e: Event)
    requires SingleInstance(w) && Enabled(w, e)
    ensures SingleInstance(Next(cfg, w, e))
  {
  }

  lemma GrantAnswered(cfg: Config, w: World, next: World, now: int)
    requires cfg.cooldown > 0 && Answered(cfg, w) && now >= w.clock && !w.c.requested
    requires next.c.requested && next.c.nextStartAt == now + cfg.cooldown
    requires next.clock == now && next.starts == w.starts && next.grants == w.grants + [now]
    ensures Answered(cfg, next)
  {
  }

  lemma StartAnswered(cfg: Config, w: World, next: World, now: int)
    requires cfg.cooldown > 0 && Answered(cfg, w) && now >= w.clock && w.c.requested && now >= w.c.nextStartAt
    requires !next.c.requested && next.clock == now && next.starts == w.starts + [now] && next.grants == w.grants
    ensures Answered(cfg, next)
  {
  }

  lemma QuietAnswered(cfg: Config, w: World, next: World)
    requires Answered(cfg, w) && next.clock >= w.clock
    requires next.c.requested == w.c.requested && next.c.nextStartAt == w.c.nextStartAt
    requires next.starts == w.starts && next.grants == w.grants
    ensures Answered(cfg, next)
  {
  }

  lemma StepAnswered(cfg: Config, w: World, e: Event)
    requires cfg.cooldown > 0 && Answered(cfg, w) && Enabled(w, e)
    ensures Answered(cfg, Next(cfg, w, e))
  {
    var next := Next(cfg, w, e);
    if next.grants != w.grants {
      GrantAnswered(cfg, w, next, e.now);
    } else if next.starts != w.starts {
      StartAnswered(cfg, w, next, e.now);
    } else {
      QuietAnswered(cfg, w, next);
    }
  }

  lemma StepLimited(cfg: Config, w: World, e: Event)
    requires cfg.maxPerHour > 0 && cfg.cooldown > 0
    requires Limited(cfg, w.grants) && Remembered(w) && Enabled(w, e)
    ensures var next := Next(cfg, w, e); Limited(cfg, next.grants) && Remembered(next)
  {
    var next := Next(cfg, w, e);
    match e
    case Collect(now) =>
      var exit := Reported(w);
      if w.c.running && exit.Some? && !w.down && !w.c.requested && exit.value != Canceled && exit.value != DeadlineExceeded {
        RequestKeeps(cfg, w, w.c.(running := false), now);
      } else {
        TimePasses(w, next);
      }
    case Check(now, health) =>
      if next.c == w.c { TimePasses(w, next); } else { RequestKeeps(cfg, w, w.c, now); }
    case Start(now) => TimePasses(w, next);
    case End(instance, exit) => TimePasses(w, next);
    case Shutdown => TimePasses(w, next);
  }

  // Over every run: in every hour at most the configured number of restarts is granted, at most one
  // instance is live, and each restart answers one grant after the cooldown.
  lemma {:induction false} RunSupervised(cfg: Config, w: World, events: seq<Event>, last: World)
    requires cfg.maxPerHour > 0 && cfg.cooldown > 0
    requires Supervised(cfg, w) && Reaches(cfg, w, events, last)
    ensures Supervised(cfg, last)
    decreases |events|
  {
    if events != [] {
      StepSingle(cfg, w, events[0]);
      StepAnswered(cfg, w, events[0]);
      StepLimited(cfg, w, events[0]);
      RunSupervised(cfg, Next(cfg, w, events[0]), events[1..], last);
    }
  }

  lemma SupervisedFromTheStart(limits: Config, now: int, events: seq<Event>, last: World)
    requires Reaches(Configured(limits), Begin(now), events, last)
    ensures forall x :: Window(last.grants, x) <= Configured(limits).maxPerHour
    ensures forall k :: 0 <= k < |last.starts| - 1 ==> last.starts[k] + Configured(limits).cooldown <= last.starts[k + 1]
    ensures |last.live| <= 1
    ensures |last.starts| == 1 + |last.grants| - (if last.c.requested then 1 else 0)
  {
    assert Recalls(Begin(now), now - HOUR);
    RunSupervised(Configured(limits), Begin(now), events, last);
    assert last.live <= {last.c.instance};
    assert |{last.c.instance} - last.live| + |last.live| == 1;
  }

  // A connector is asked to restart by a check exactly when it runs, nothing is requested, its grace is over
  // and its report says degraded and suggests a restart.
  lemma ChecksAsk(cfg: Config, c: Connector, health: Health, now: int)
    ensures var asks := c.running && !c.requested && now >= c.startedAt + cfg.grace && health == Report(true, true);
      AfterCheck(cfg, c, health, now) == if asks then AfterRequest(cfg, c, now) else c
  {
  }

  // A tick is the three steps at one reading of the clock.
  lemma TickIsThreeSteps(cfg: Config, w: World, now: int, health: Health) returns (last: World)
    requires now >= w.clock
    ensures Reaches(cfg, w, [Collect(now), Check(now, health), Start(now)], last)
    ensures last.clock == now && last.down == w.down
    ensures last.c == AfterStart(AfterCheck(cfg, AfterExit(cfg, w.c, Reported(w), w.down, now), health, now), w.down, now)
  {
    var w1 := Next(cfg, w, Collect(now));
    var w2 := Next(cfg, w1, Check(now, health));
    last := Next(cfg, w2, Start(now));
    assert Reaches(cfg, last, [], last);
    assert [Start(now)][1..] == [] && Reaches(cfg, w2, [Start(now)], last);
    assert [Check(now, health), Start(now)][1..] == [Start(now)];
    assert Reaches(cfg, w1, [Check(now, health), Start(now)], last);
    assert [Collect(now), Check(now, health), Start(now)][1..] == [Check(now, health), Start(now)];
  }

  // Each of them leaves the clock at its reading, whether it does anything or not.
  lemma ClockFollows(cfg: Config, w: World, now: int, health: Health)
    requires now >= w.clock
    ensures Next(cfg, w, Collect(now)).clock == now && Next(cfg, w, Check(now, health)).clock == now
    ensures Next(cfg, w, Start(now)).clock == now
  {
  }

  // Once the supervisor goes down nothing is started, and no exit asks for a restart.
  lemma {:induction false} DownForGood(cfg: Config, w: World, events: seq<Event>, last: World)
    requires w.down && Reaches(cfg, w, events, last)
    ensures last.down && last.starts == w.starts && last.live <= w.live
    decreases |events|
  {
    if events != [] { DownForGood(cfg, Next(cfg, w, events[0]), events[1..], last); }
  }

  lemma ShutdownEndsIt(cfg: Config, w: World, events: seq<Event>, last: World)
    requires Reaches(cfg, Next(cfg, w, Shutdown), events, last)
    ensures last.starts == w.starts && last.live <= w.live
  {
    DownForGood(cfg, Next(cfg, w, Shutdown), events, last);
  }

  /// The end of supervision

  ghost predicate Abandoned(w: World) {
    !w.c.running && !w.c.requested
  }

  // Once a connector neither runs nor waits for a restart, nothing starts it again.
  lemma {:induction false} AbandonedForGood(cfg: Config, w: World, events: seq<Event>, last: World)
    requires Abandoned(w) && Reaches(cfg, w, events, last)
    ensures last.c == w.c && last.starts == w.starts && last.grants == w.grants && last.live <= w.live
    decreases |events|
  {
    if events != [] { AbandonedForGood(cfg, Next(cfg, w, events[0]), events[1..], last); }
  }

  lemma CollectAbandonsIff(cfg: Config, w: World, e: Event)
    requires cfg.maxPerHour > 0 && Supervised(cfg, w) && Enabled(w, e) && !Abandoned(w) && e.Collect?
    ensures Abandoned(Next(cfg, w, e)) <==>
      && w.c.running && !w.c.requested && w.c.instance in w.ended
      && (w.down || w.ended[w.c.instance] in {Canceled, DeadlineExceeded}
          || |Within(w.grants, e.now - HOUR)| >= cfg.maxPerHour)
  {
    var cut :| Recalls(w, cut);
    WithinWithin(w.grants, cut, e.now - HOUR);
  }

  // A step abandons the connector exactly when it collects the exit of an instance nobody had asked to
  // restart and then does not ask: the exit was a cancellation, the supervisor is going down, or the last
  // hour has used up the restarts.
  lemma AbandonedIff(cfg: Config, w: World, e: Event)
    requires cfg.maxPerHour > 0 && Supervised(cfg, w) && Enabled(w, e) && !Abandoned(w)
    ensures Abandoned(Next(cfg, w, e)) <==>
      && e.Collect? && w.c.running && !w.c.requested && w.c.instance in w.ended
      && (w.down || w.ended[w.c.instance] in {Canceled, DeadlineExceeded}
          || |Within(w.grants, e.now - HOUR)| >= cfg.maxPerHour)
  {
    if e.Collect? { CollectAbandonsIff(cfg, w, e); }
  }

  lemma {:induction false} Extended(cfg: Config, w: World, events: seq<Event>, mid: World, e: Event)
    requires Reaches(cfg, w, events, mid) && Enabled(mid, e)
    ensures Reaches(cfg, w, events + [e], Next(cfg, mid, e))
    decreases |events|
  {
    if events != [] {
      Extended(cfg, Next(cfg, w, events[0]), events[1..], mid, e);
      assert (events + [e])[1..] == events[1..] + [e];
    }
  }

  /// Hours with both ends

  // The restarts granted in the hour that ends at `x`, its first instant included.
  function ClosedWindow(grants: seq<int>, x: int): nat {
    if grants == [] then 0
    else ClosedWindow(grants[..|grants| - 1], x) + (if x - HOUR <= grants[|grants| - 1] <= x then 1 else 0)
  }

  ghost predicate ClosedLimited(cfg: Config, grants: seq<int>) {
    forall x :: ClosedWindow(grants, x) <= cfg.maxPerHour
  }

  // Every grant found one to spare even with the restart of exactly an hour ago still counted.
  ghost predicate Spared(cfg: Config, grants: seq<int>) {
    forall k :: 0 <= k < |grants| ==> SparedAt(cfg, grants, k)
  }

  ghost predicate SparedAt(cfg: Config, grants: seq<int>, k: nat)
    requires k < |grants|
  {
    |Within(grants[..k], grants[k] - HOUR - 1)| < cfg.maxPerHour
  }

  ghost predicate Increasing(grants: seq<int>) {
    forall j, k :: 0 <= j < k < |grants| ==> grants[j] < grants[k]
  }

  lemma {:induction false} ClosedWithin(grants: seq<int>, x: int, last: int)
    requires last <= x && forall k :: 0 <= k < |grants| ==> grants[k] <= last
    ensures ClosedWindow(grants, x) <= |Within(grants, last - HOUR - 1)|
    ensures x == last ==> ClosedWindow(grants, x) == |Within(grants, last - HOUR - 1)|
  {
    if grants != [] { ClosedWithin(grants[..|grants| - 1], x, last); }
  }

  lemma SparedNext(cfg: Config, front: seq<int>, last: int)
    ensures Spared(cfg, front + [last]) <==> Spared(cfg, front) && |Within(front, last - HOUR - 1)| < cfg.maxPerHour
  {
    var all := front + [last];
    assert all[..|front|] == front;
    forall k: nat | k < |front| ensures SparedAt(cfg, all, k) <==> SparedAt(cfg, front, k) {
      assert all[..k] == front[..k];
    }
    assert SparedAt(cfg, all, |front|) <==> |Within(front, last - HOUR - 1)| < cfg.maxPerHour;
    if Spared(cfg, all) {
      forall k: nat | k < |front| ensures SparedAt(cfg, front, k) { assert SparedAt(cfg, all, k); }
    }
  }

  lemma ClosedNext(cfg: Config, front: seq<int>, last: int)
    requires forall k :: 0 <= k < |front| ==> front[k] <= last
    ensures ClosedLimited(cfg, front + [last]) <==>
      ClosedLimited(cfg, front) && |Within(front, last - HOUR - 1)| < cfg.maxPerHour
  {
    var all := front + [last];
    assert all[..|front|] == front;
    ClosedWithin(front, last, last);
    if ClosedLimited(cfg, all) {
      forall x ensures ClosedWindow(front, x) <= cfg.maxPerHour { assert ClosedWindow(all, x) <= cfg.maxPerHour; }
      assert ClosedWindow(all, last) <= cfg.maxPerHour;
    }
    if ClosedLimited(cfg, front) && |Within(front, last - HOUR - 1)| < cfg.maxPerHour {
      forall x ensures ClosedWindow(all, x) <= cfg.maxPerHour {
        assert ClosedWindow(front, x) <= cfg.maxPerHour;
        if last <= x { ClosedWithin(front, x, last); }
      }
    }
  }

  lemma {:induction false} ClosedIffSpared(cfg: Config, grants: seq<int>)
    requires cfg.maxPerHour > 0 && Increasing(grants)
    ensures ClosedLimited(cfg, grants) <==> Spared(cfg, grants)
  {
    if grants == [] {
      assert forall x :: ClosedWindow(grants, x) == 0;
    } else {
      var front, last := grants[..|grants| - 1], grants[|grants| - 1];
      assert grants == front + [last];
      ClosedIffSpared(cfg, front);
      SparedNext(cfg, front, last);
      ClosedNext(cfg, front, last);
    }
  }

  lemma {:induction false} ClosedByOne(grants: seq<int>, x: int)
    requires Increasing(grants)
    ensures ClosedWindow(grants, x) <= Window(grants, x) + 1
    ensures (forall k :: 0 <= k < |grants| ==> grants[k] != x - HOUR) ==> ClosedWindow(grants, x) == Window(grants, x)
  {
    if grants != [] {
      var front, last := grants[..|grants| - 1], grants[|grants| - 1];
      ClosedByOne(front, x);
      assert forall k :: 0 <= k < |front| ==> front[k] == grants[k];
    }
  }

  lemma GrantsIncrease(cfg: Config, w: World)
    requires cfg.cooldown > 0 && Answered(cfg, w)
    ensures Increasing(w.grants)
  {
    forall k | 0 <= k < |w.grants| - 1 ensures w.grants[k] < w.grants[k + 1] {
      assert w.grants[k] + cfg.cooldown <= w.starts[k + 1] <= w.grants[k + 1];
    }
    StepsIncrease(w.grants);
  }

  lemma {:induction false} StepsIncrease(s: seq<int>)
    requires forall k :: 0 <= k < |s| - 1 ==> s[k] < s[k + 1]
    ensures Increasing(s)
  {
    if |s| > 1 {
      var front := s[..|s| - 1];
      StepsIncrease(front);
      assert forall j, k :: 0 <= j < k < |front| ==> s[j] == front[j] && s[k] == front[k];
      assert forall j :: 0 <= j < |front| ==> front[j] <= front[|front| - 1];
    }
  }

  // The limit holds for hours with both ends if and only if every restart was granted with one to spare when
  // the restart of exactly an hour before is counted too; and no hour ever has more than one too many.
  lemma ClosedHourIff(limits: Config, now: int, events: seq<Event>, last: World)
    requires Reaches(Configured(limits), Begin(now), events, last)
    ensures ClosedLimited(Configured(limits), last.grants) <==> Spared(Configured(limits), last.grants)
    ensures forall x :: ClosedWindow(last.grants, x) <= Configured(limits).maxPerHour + 1
  {
    var cfg := Configured(limits);
    assert Recalls(Begin(now), now - HOUR);
    RunSupervised(cfg, Begin(now), events, last);
    GrantsIncrease(cfg, last);
    ClosedIffSpared(cfg, last.grants);
    forall x ensures ClosedWindow(last.grants, x) <= cfg.maxPerHour + 1 {
      ClosedByOne(last.grants, x);
      assert Window(last.grants, x) <= cfg.maxPerHour;
    }
  }

  // At a tick later than the last, the restart of exactly an hour ago is still remembered, so whether there
  // is one to spare can be read off the connector before the request.
  lemma SpareSeen(w: World, now: int)
    requires Remembered(w) && w.clock < now
    ensures Within(w.c.restarts, now - HOUR - 1) == Within(w.grants, now - HOUR - 1)
  {
    var cut :| Recalls(w, cut);
    WithinWithin(w.grants, cut, now - HOUR - 1);
  }

  // A step keeps the limit for hours with both ends if and only if it grants nothing or finds one to spare.
  lemma StepClosedIff(cfg: Config, w: World, e: Event)
    requires cfg.maxPerHour > 0 && cfg.cooldown > 0 && Supervised(cfg, w) && Enabled(w, e)
    requires ClosedLimited(cfg, w.grants)
    ensures var next := Next(cfg, w, e);
      ClosedLimited(cfg, next.grants) <==>
        (next.grants != w.grants ==> |Within(w.grants, e.now - HOUR - 1)| < cfg.maxPerHour)
  {
    var next := Next(cfg, w, e);
    if next.grants != w.grants { ClosedNext(cfg, w.grants, e.now); }
  }

  // The hour is half open: two restarts exactly an hour apart are both granted where one an hour is
  // allowed.
  lemma ClosedHourExceeded() returns (events: seq<Event>, last: World)
    ensures Reaches(Config(SECOND, SECOND, 1), Begin(0), events, last) && last.grants == [0, HOUR]
  {
    var cfg := Config(SECOND, SECOND, 1);
    var first := SecondRun(cfg);
    events := [End(0, Failed), Collect(0), Start(SECOND), End(1, Failed)];
    assert Within([0], 0) == [];
    Extended(cfg, Begin(0), events, first, Collect(HOUR));
    last := Next(cfg, first, Collect(HOUR));
    events := events + [Collect(HOUR)];
  }

  lemma SecondRun(cfg: Config) returns (w: World)
    requires cfg == Config(SECOND, SECOND, 1)
    ensures Reaches(cfg, Begin(0), [End(0, Failed), Collect(0), Start(SECOND), End(1, Failed)], w)
    ensures w == World(Connector(true, false, SECOND, SECOND, [0], 1), {}, map[0 := Failed, 1 := Failed], false, SECOND, [0, SECOND], [0])
  {
    var w1 := Next(cfg, Begin(0), End(0, Failed));
    assert Reaches(cfg, w1, [], w1);
    var w2 := Next(cfg, w1, Collect(0));
    Extended(cfg, Begin(0), [End(0, Failed)], w1, Collect(0));
    assert w2.c == Connector(false, true, 0, SECOND, [0], 0);
    var w3 := Next(cfg, w2, Start(SECOND));
    Extended(cfg, Begin(0), [End(0, Failed), Collect(0)], w2, Start(SECOND));
    w := Next(cfg, w3, End(1, Failed));
    Extended(cfg, Begin(0), [End(0, Failed), Collect(0), Start(SECOND)], w3, End(1, Failed));
    assert [End(0, Failed), Collect(0), Start(SECOND)] + [End(1, Failed)] == [End(0, Failed), Collect(0), Start(SECOND), End(1, Failed)];
    assert [End(0, Failed)] + [Collect(0)] == [End(0, Failed), Collect(0)];
    assert [End(0, Failed), Collect(0)] + [Start(SECOND)] == [End(0, Failed), Collect(0), Start(SECOND)];
  }
}
