/** The idle timeout of one owner (ssh_manager.py): a periodic tick warns, then
    disconnects; running commands count as activity until they fall silent. */
module IdleTimeouts {
  import opened Common
  import opened Config

  type Device = string

  datatype Session = Session(busy: bool, lastIo: real)

  /** The owner's entry; `silent` is set while all running commands are silent. */
  datatype Info = Info(lastActive: real, warned: bool, silent: bool)

  /** What the owner can notice: signs of life, the warning and the disconnect. */
  datatype Event = Activity(at: real) | Warned(at: real, seconds: int) | TimedOut(at: real)

  /** `lastTick` is the last tick, or the moment the owner's entry was made. */
  datatype State = State(clock: real, lastTick: real, sessions: map<Device, Session>, info: Option<Info>,
      log: seq<Event>)

  const START := State(0.0, 0.0, map[], None, [])

  datatype Action =
    | Connect(device: Device, now: real)
    | StartRun(device: Device, now: real)
    | Io(device: Device, now: real)
    | FinishRun(device: Device, now: real)
    | Stay(now: real)
    | Close(device: Device)
    | Release
    | Tick(now: real)

  predicate Busy(s: State) { exists d :: d in s.sessions && s.sessions[d].busy }

  predicate Lively(s: State, now: real) {
    exists d :: d in s.sessions && s.sessions[d].busy && now - s.sessions[d].lastIo < TERM_SILENCE_SECONDS
  }

  predicate Enabled(s: State, a: Action) {
    match a
    case Connect(_, now) => now >= s.clock
    case StartRun(d, now) => now >= s.clock && d in s.sessions && !s.sessions[d].busy
    case Io(d, now) => now >= s.clock && d in s.sessions && s.sessions[d].busy
    case FinishRun(d, now) => now >= s.clock && d in s.sessions && s.sessions[d].busy
    case Stay(now) => now >= s.clock
    case Tick(now) => now >= s.clock
    case _ => true
  }

  /** `_owner_touch`: a fresh entry, made if there was none. */
  function Touch(s: State, now: real): State {
    s.(info := Some(Info(now, false, false)), lastTick := if s.info.None? then now else s.lastTick,
       log := s.log + [Activity(now)])
  }

  /** `_owner_reset`: the silent mark stays. */
  function Reset(s: State, now: real): State {
    if s.info.None? then s
    else s.(info := Some(s.info.value.(lastActive := now, warned := false)), log := s.log + [Activity(now)])
  }

  /** Python's `int` on a number that is not negative. */
  function Whole(x: real): int { x.Floor }

  /** All running commands are silent: idle counts from the moment of crossing. */
  function Crossed(info: Info, busy: bool, now: real): Info {
    if busy && !info.silent then Info(now - IDLE_WARN_SECONDS, false, true) else info
  }

  function TickStep(s: State, now: real): State {
    var t := s.(lastTick := now);
    if s.info.None? then t
    else if s.sessions == map[] then t.(info := None)
    else if Lively(s, now) then t.(info := Some(Info(now, false, false)), log := s.log + [Activity(now)])
    else
      var info := Crossed(s.info.value, Busy(s), now);
      var idle := now - info.lastActive;
      if idle >= IDLE_TIMEOUT_SECONDS then t.(sessions := map[], info := None, log := s.log + [TimedOut(now)])
      else if idle >= IDLE_WARN_SECONDS && !info.warned then
        t.(info := Some(info.(warned := true)), log := s.log + [Warned(now, Whole(IDLE_TIMEOUT_SECONDS - idle))])
      else t.(info := Some(info))
  }

  function Step(s: State, a: Action): State
    requires Enabled(s, a)
  {
    match a
    case Connect(d, now) => Touch(s.(clock := now, sessions := s.sessions[d := Session(false, now)]), now)
    case StartRun(d, now) => s.(clock := now, sessions := s.sessions[d := Session(true, now)])
    case Io(d, now) => s.(clock := now, sessions := s.sessions[d := Session(true, now)])
    case FinishRun(d, now) => Reset(s.(clock := now, sessions := s.sessions[d := s.sessions[d].(busy := false)]), now)
    case Stay(now) =>
      Reset(s.(clock := now, sessions := map d | d in s.sessions ::
                 if s.sessions[d].busy then s.sessions[d].(lastIo := now) else s.sessions[d]), now)
    case Close(d) => s.(sessions := s.sessions - {d})
    case Release => s.(sessions := map[], info := None)
    case Tick(now) => TickStep(s, now).(clock := now)
  }

  ghost predicate IsRun(s: State, actions: seq<Action>)
    decreases |actions|
  {
    actions == [] || (Enabled(s, actions[0]) && IsRun(Step(s, actions[0]), actions[1..]))
  }

  function After(s: State, actions: seq<Action>): State
    requires IsRun(s, actions)
    decreases |actions|
  {
    if actions == [] then s else After(Step(s, actions[0]), actions[1..])
  }

  /** A tick comes within `gap` of the one before it, or of the owner's first activity. */
  predicate InTime(s: State, a: Action, gap: real) { a.Tick? && s.info.Some? ==> a.now - s.lastTick <= gap }

  ghost predicate Prompt(s: State, actions: seq<Action>, gap: real)
    requires IsRun(s, actions)
    decreases |actions|
  {
    actions != [] ==> InTime(s, actions[0], gap) && Prompt(Step(s, actions[0]), actions[1..], gap)
  }

  /** The time between a warning that is due and the disconnect. */
  const NOTICE := IDLE_TIMEOUT_SECONDS - IDLE_WARN_SECONDS

  // ---- warnings since the last activity -------------------------------------------

  /** The warnings after the last sign of life. */
  function Warnings(log: seq<Event>): seq<Event> {
    if log == [] then []
    else
      var last := log[|log| - 1];
      if last.Activity? then [] else Warnings(log[..|log| - 1]) + if last.Warned? then [last] else []
  }

  /** Each disconnect came after exactly one warning since the last activity, and
      not before the time that warning gave had passed. */
  predicate FairDisconnects(log: seq<Event>) {
    forall i :: 0 <= i < |log| && log[i].TimedOut? ==> Fair(log[..i], log[i].at)
  }

  predicate Fair(log: seq<Event>, at: real) {
    var warnings := Warnings(log);
    |warnings| == 1 && warnings[0].Warned? && at >= warnings[0].at + warnings[0].seconds as real &&
        warnings[0].seconds >= 0
  }

  /** A command that ran through the last tick has either kept the owner active or
      been marked silent. */
  predicate SilenceInv(s: State) {
    s.info.Some? && !s.info.value.silent ==>
      forall d :: d in s.sessions && s.sessions[d].busy ==>
          s.info.value.lastActive >= s.lastTick || s.sessions[d].lastIo >= s.lastTick
  }

  /** The warned mark tells whether the last tick found the owner idle, and the log
      holds that one warning. */
  predicate WarnInv(s: State) {
    s.info.Some? ==> (
      var info, warnings := s.info.value, Warnings(s.log);
      if info.warned then
        && info.lastActive + IDLE_WARN_SECONDS <= s.lastTick && |warnings| == 1 && warnings[0].Warned?
        && 0 <= warnings[0].seconds && warnings[0].at + warnings[0].seconds as real <= info.lastActive +
            IDLE_TIMEOUT_SECONDS
      else info.lastActive + IDLE_WARN_SECONDS > s.lastTick && warnings == [])
  }

  predicate ClockInv(s: State) {
    && s.lastTick <= s.clock && (s.sessions != map[] ==> s.info.Some?)
    && forall d :: d in s.sessions ==> s.sessions[d].lastIo <= s.clock
  }

  predicate Inv(s: State) { SilenceInv(s) && WarnInv(s) && ClockInv(s) && FairDisconnects(s.log) }

  lemma WarningsSnoc(log: seq<Event>, e: Event)
    ensures Warnings(log + [e]) == if e.Activity? then [] else Warnings(log) + if e.Warned? then [e] else []
  {
    assert (log + [e])[..|log|] == log;
  }

  lemma FairSnoc(log: seq<Event>, e: Event)
    requires FairDisconnects(log) && (e.TimedOut? ==> Fair(log, e.at))
    ensures FairDisconnects(log + [e])
  {
    forall i | 0 <= i < |log + [e]| && (log + [e])[i].TimedOut? ensures Fair((log + [e])[..i], (log + [e])[i].at) {
      assert (log + [e])[..i] == log[..i];
      if i == |log| { assert log[..i] == log; }
    }
  }

  lemma TouchKeepsInv(s: State, d: Device, now: real)
    requires Inv(s) && now >= s.clock
    ensures Inv(Step(s, Connect(d, now)))
  {
    hide Warnings, FairDisconnects;
    WarningsSnoc(s.log, Activity(now));
    FairSnoc(s.log, Activity(now));
  }

  lemma ResetKeepsInv(s: State, now: real)
    requires Inv(s) && now == s.clock
    ensures Inv(Reset(s, now))
  {
    hide Warnings, FairDisconnects;
    WarningsSnoc(s.log, Activity(now));
    FairSnoc(s.log, Activity(now));
  }

  lemma SessionsKeepInv(s: State, a: Action)
    requires Inv(s) && Enabled(s, a) && (a.StartRun? || a.Io? || a.Close? || a.Release?)
    ensures Inv(Step(s, a))
  {
    hide Warnings, FairDisconnects;
  }

  /** When every running command has just fallen silent, no warning is out. */
  lemma CrossingIsUnwarned(s: State, now: real)
    requires Inv(s) && Enabled(s, Tick(now)) && InTime(s, Tick(now), NOTICE) && s.info.Some? && !s.info.value.silent &&
             Busy(s) && !Lively(s, now)
    ensures !s.info.value.warned
  {
    var d :| d in s.sessions && s.sessions[d].busy;
    assert now - s.sessions[d].lastIo >= TERM_SILENCE_SECONDS;
  }

  lemma TickKeepsInv(s: State, now: real)
    requires Inv(s) && Enabled(s, Tick(now)) && InTime(s, Tick(now), NOTICE)
    ensures Inv(Step(s, Tick(now)))
  {
    hide Warnings, FairDisconnects, Fair;
    if s.info.Some? && s.sessions != map[] {
      if Lively(s, now) {
        WarningsSnoc(s.log, Activity(now));
        FairSnoc(s.log, Activity(now));
      } else {
        QuietTickKeepsInv(s, now);
      }
    }
  }

  /** The entry a quiet tick judges by. */
  function Judged(s: State, now: real): Info
    requires s.info.Some?
  {
    Crossed(s.info.value, Busy(s), now)
  }

  lemma JudgedKeepsWarn(s: State, now: real)
    requires Inv(s) && now >= s.clock && InTime(s, Tick(now), NOTICE) && s.info.Some? && !Lively(s, now)
    ensures var info, warnings := Judged(s, now), Warnings(s.log);
            if info.warned then
              && info.lastActive + IDLE_WARN_SECONDS <= now && |warnings| == 1 && warnings[0].Warned?
              && 0 <= warnings[0].seconds && warnings[0].at + warnings[0].seconds as real <= info.lastActive +
                  IDLE_TIMEOUT_SECONDS
            else info.lastActive + IDLE_TIMEOUT_SECONDS > now && warnings == []
  {
    if Busy(s) && !s.info.value.silent { CrossingIsUnwarned(s, now); }
    hide Warnings, FairDisconnects, Lively, Busy, SilenceInv;
  }

  /** A tick that finds the owner past the timeout finds the one warning given in time. */
  lemma TimeoutIsFair(s: State, now: real)
    requires Inv(s) && now >= s.clock && InTime(s, Tick(now), NOTICE) && s.info.Some? && !Lively(s, now)
    requires now - Judged(s, now).lastActive >= IDLE_TIMEOUT_SECONDS
    ensures Fair(s.log, now)
  {
    hide Inv, Warnings, Lively, Judged;
    JudgedKeepsWarn(s, now);
  }

  function Due(s: State, now: real): Event
    requires s.info.Some?
  {
    Warned(now, Whole(IDLE_TIMEOUT_SECONDS - (now - Judged(s, now).lastActive)))
  }

  /** The three outcomes of a tick that finds no lively command. */
  lemma QuietStep(s: State, now: real)
    requires Enabled(s, Tick(now)) && s.info.Some? && s.sessions != map[] && !Lively(s, now)
    ensures var t, info := s.(lastTick := now, clock := now), Judged(s, now);
            Step(s, Tick(now)) ==
              if now - info.lastActive >= IDLE_TIMEOUT_SECONDS then
                t.(sessions := map[], info := None, log := s.log + [TimedOut(now)])
              else if now - info.lastActive >= IDLE_WARN_SECONDS && !info.warned then
                t.(info := Some(info.(warned := true)), log := s.log + [Due(s, now)])
              else t.(info := Some(info))
  {
    hide Lively, Busy;
  }

  lemma QuietTickKeepsWarn(s: State, now: real)
    requires Inv(s) && Enabled(s, Tick(now)) && InTime(s, Tick(now), NOTICE) && s.info.Some? && s.sessions != map[] &&
             !Lively(s, now)
    ensures WarnInv(Step(s, Tick(now)))
  {
    hide Warnings, FairDisconnects, Lively, Busy, SilenceInv, Step, Judged, ClockInv;
    QuietStep(s, now);
    JudgedKeepsWarn(s, now);
    WarningsSnoc(s.log, Due(s, now));
  }

  lemma QuietTickKeepsFair(s: State, now: real)
    requires Inv(s) && Enabled(s, Tick(now)) && InTime(s, Tick(now), NOTICE) && s.info.Some? && s.sessions != map[] &&
             !Lively(s, now)
    ensures FairDisconnects(Step(s, Tick(now)).log)
  {
    QuietStep(s, now);
    if now - Judged(s, now).lastActive >= IDLE_TIMEOUT_SECONDS {
      TimeoutIsFair(s, now);
      FairSnoc(s.log, TimedOut(now));
    }
    FairSnoc(s.log, Due(s, now));
    hide Warnings, FairDisconnects, Fair, Lively, Busy, SilenceInv, WarnInv, Step, Judged;
  }

  lemma QuietTickKeepsInv(s: State, now: real)
    requires Inv(s) && Enabled(s, Tick(now)) && InTime(s, Tick(now), NOTICE) && s.info.Some? && s.sessions != map[] &&
             !Lively(s, now)
    ensures Inv(Step(s, Tick(now)))
  {
    CrossingKeepsInv(s, now);
    QuietTickKeepsWarn(s, now);
    QuietTickKeepsFair(s, now);
    QuietStep(s, now);
    hide FairDisconnects, SilenceInv, WarnInv, Step, Judged, Lively;
  }

  /** After a tick that found no lively command, silence is marked or there is no command. */
  lemma CrossingKeepsInv(s: State, now: real)
    requires Inv(s) && now >= s.clock && s.info.Some? && s.sessions != map[] && !Lively(s, now)
    ensures SilenceInv(Step(s, Tick(now)))
  {
    hide Warnings, FairDisconnects, Lively, WarnInv;
  }

  lemma StepKeepsInv(s: State, a: Action)
    requires Inv(s) && Enabled(s, a) && InTime(s, a, NOTICE)
    ensures Inv(Step(s, a))
  {
    match a
    case Connect(d, now) => TouchKeepsInv(s, d, now);
    case FinishRun(d, now) => FinishKeepsInv(s, d, now);
    case Stay(now) => StayKeepsInv(s, now);
    case Tick(now) => TickKeepsInv(s, now);
    case _ => SessionsKeepInv(s, a);
  }

  lemma FinishKeepsInv(s: State, d: Device, now: real)
    requires Inv(s) && Enabled(s, FinishRun(d, now))
    ensures Inv(Step(s, FinishRun(d, now)))
  {
    var t := s.(clock := now, sessions := s.sessions[d := s.sessions[d].(busy := false)]);
    assert Inv(t) by { hide Warnings, FairDisconnects; }
    ResetKeepsInv(t, now);
  }

  lemma StayKeepsInv(s: State, now: real)
    requires Inv(s) && Enabled(s, Stay(now))
    ensures Inv(Step(s, Stay(now)))
  {
    var t := s.(clock := now, sessions := map d | d in s.sessions ::
      if s.sessions[d].busy then s.sessions[d].(lastIo := now) else s.sessions[d]);
    assert Inv(t) by { hide Warnings, FairDisconnects; }
    ResetKeepsInv(t, now);
  }

  lemma {:induction false} RunKeepsInv(s: State, actions: seq<Action>)
    requires Inv(s) && IsRun(s, actions) && Prompt(s, actions, NOTICE)
    ensures Inv(After(s, actions))
    decreases |actions|
  {
    hide Inv;
    if actions != [] {
      StepKeepsInv(s, actions[0]);
      RunKeepsInv(Step(s, actions[0]), actions[1..]);
    }
  }

  /** With ticks at most 30 seconds apart, and one that soon after the owner's
      first activity, every idle disconnect of every run is preceded by exactly one
      warning since the owner's last activity, running commands that fell silent
      included, and never comes before the time the warning gave is over. */
  lemma EveryDisconnectIsWarnedOnce(actions: seq<Action>, gap: real)
    requires gap <= NOTICE && IsRun(START, actions) && Prompt(START, actions, gap)
    ensures FairDisconnects(After(START, actions).log)
  {
    assert Inv(START);
    NarrowIsPrompt(START, actions, gap, NOTICE);
    RunKeepsInv(START, actions);
  }

  lemma {:induction false} NarrowIsPrompt(s: State, actions: seq<Action>, gap: real, wider: real)
    requires gap <= wider && IsRun(s, actions) && Prompt(s, actions, gap)
    ensures Prompt(s, actions, wider)
    decreases |actions|
  {
    if actions != [] { NarrowIsPrompt(Step(s, actions[0]), actions[1..], gap, wider); }
  }

  // ---- who is warned, who is disconnected, who is spared ------------------------------

  /** The moment a tick counts idleness from when no running command is heard of: the
      last activity, or the moment all commands have just been found silent. */
  function Since(s: State, now: real): real
    requires s.info.Some?
  {
    if (exists d :: d in s.sessions && s.sessions[d].busy) && !s.info.value.silent then now - 270.0
    else s.info.value.lastActive
  }

  /** What every tick does, in the owner's terms. */
  lemma TickDecides(s: State, now: real)
    requires Enabled(s, Tick(now)) && s.info.Some? && s.sessions != map[]
    ensures var n, idle := Step(s, Tick(now)), now - Since(s, now);
            var heard := exists d :: d in s.sessions && s.sessions[d].busy && now - s.sessions[d].lastIo < 1800.0;
            var crossed := (exists d :: d in s.sessions && s.sessions[d].busy) && !s.info.value.silent;
            if heard then
              n.sessions == s.sessions && n.log == s.log + [Activity(now)] && n.info == Some(Info(now, false, false))
            else if idle >= 300.0 then n.sessions == map[] && n.info == None && n.log == s.log + [TimedOut(now)]
            else
              && n.sessions == s.sessions && n.info.Some? && n.info.value.lastActive == Since(s, now)
              && n.info.value.silent == (s.info.value.silent || crossed)
              && if idle >= 270.0 && (crossed || !s.info.value.warned) then
                   n.info.value.warned && |n.log| == |s.log| + 1 && n.log[..|s.log|] == s.log &&
                   n.log[|s.log|].Warned? && n.log[|s.log|].at == now &&
                   n.log[|s.log|].seconds as real <= 300.0 - idle < n.log[|s.log|].seconds as real + 1.0
                 else n.log == s.log && (n.info.value.warned <==> s.info.value.warned && !crossed)
  {
  }

  /** An owner without sessions is forgotten without a word, and one that is not known
      is left alone. */
  lemma TickForgetsTheGone(s: State, now: real)
    requires Enabled(s, Tick(now)) && (s.info.None? || s.sessions == map[])
    ensures Step(s, Tick(now)) == s.(info := None, clock := now, lastTick := now)
  {
  }

  predicate NoneBusy(s: State) { forall d :: d in s.sessions ==> !s.sessions[d].busy }

  /** An owner with nothing running and no activity is disconnected by the first tick
      five minutes after the last one. */
  lemma {:induction false} QuietOwnerIsDisconnected(s: State, actions: seq<Action>, now: real)
    requires s.info.Some? && NoneBusy(s) && IsRun(s, actions) && forall i :: 0 <= i < |actions| ==> actions[i].Tick?
    requires Enabled(After(s, actions), Tick(now)) && now >= s.info.value.lastActive + 300.0
    ensures Step(After(s, actions), Tick(now)).sessions == map[]
    decreases |actions|
  {
    hide Warnings;
    if actions == [] {
      if s.sessions != map[] { TickDecides(s, now); }
    } else {
      var n := Step(s, actions[0]);
      if s.sessions != map[] { TickDecides(s, actions[0].now); }
      if n.info.Some? {
        assert n.info.value.lastActive == s.info.value.lastActive && NoneBusy(n);
        QuietOwnerIsDisconnected(n, actions[1..], now);
      } else {
        GoneStaysGone(n, actions[1..]);
      }
    }
  }

  lemma {:induction false} GoneStaysGone(s: State, actions: seq<Action>)
    requires s.info.None? && s.sessions == map[] && IsRun(s, actions)
    requires forall i :: 0 <= i < |actions| ==> actions[i].Tick?
    ensures After(s, actions).info.None? && After(s, actions).sessions == map[]
    decreases |actions|
  {
    if actions != [] { GoneStaysGone(Step(s, actions[0]), actions[1..]); }
  }

  /** The command on `d` goes on, and no tick comes later than half an hour after `at`. */
  predicate GoesOn(a: Action, d: Device, at: real) {
    && (a.Tick? ==> a.now - at < 1800.0) && !a.Release? && a != Close(d)
    && (a.Connect? || a.FinishRun? ==> a.device != d)
  }

  /** No warning and no disconnect from some point of the log on. */
  predicate Spared(log: seq<Event>, from: nat) {
    from <= |log| && forall i :: from <= i < |log| ==> log[i].Activity?
  }

  /** "Stay connected" counts for every running command: as long as one of them runs,
      for half an hour the owner is neither warned nor disconnected, silent or not. */
  lemma StaySparesTheOwner(s: State, at: real, d: Device, actions: seq<Action>)
    requires Enabled(s, Stay(at)) && s.info.Some? && d in s.sessions && s.sessions[d].busy
    requires IsRun(Step(s, Stay(at)), actions) && forall i :: 0 <= i < |actions| ==> GoesOn(actions[i], d, at)
    ensures var n := After(Step(s, Stay(at)), actions);
            Spared(n.log, |s.log|) && d in n.sessions && n.info.Some?
  {
    CommandSparesTheOwner(Step(s, Stay(at)), at, d, actions, |s.log|);
  }

  /** Output of a command, or input to it, does the same. */
  lemma OutputSparesTheOwner(s: State, at: real, d: Device, actions: seq<Action>)
    requires Enabled(s, Io(d, at)) && s.info.Some?
    requires IsRun(Step(s, Io(d, at)), actions) && forall i :: 0 <= i < |actions| ==> GoesOn(actions[i], d, at)
    ensures var n := After(Step(s, Io(d, at)), actions);
            Spared(n.log, |s.log|) && d in n.sessions && n.info.Some?
  {
    CommandSparesTheOwner(Step(s, Io(d, at)), at, d, actions, |s.log|);
  }

  /** The end of a command is activity of its owner, and from then on it no longer
      counts as running. */
  lemma FinishCountsAsActivity(s: State, d: Device, at: real)
    requires Enabled(s, FinishRun(d, at)) && s.info.Some?
    ensures var n := Step(s, FinishRun(d, at));
            && n.sessions == s.sessions[d := s.sessions[d].(busy := false)] && n.clock == at
            && n.info == Some(Info(at, false, s.info.value.silent)) && n.log == s.log + [Activity(at)]
  {
  }

  /** A closed session is gone, and a released owner has none and is forgotten. */
  lemma LeavingIsFinal(s: State, d: Device)
    ensures Step(s, Close(d)) == s.(sessions := s.sessions - {d})
    ensures Step(s, Release).sessions == map[] && Step(s, Release).info == None && Step(s, Release).log == s.log
  {
  }

  lemma {:induction false} CommandSparesTheOwner(s: State, at: real, d: Device, actions: seq<Action>, from: nat)
    requires s.info.Some? && d in s.sessions && s.sessions[d].busy && s.sessions[d].lastIo >= at && s.clock >= at
    requires IsRun(s, actions) && Spared(s.log, from) && forall i :: 0 <= i < |actions| ==> GoesOn(actions[i], d, at)
    ensures var n := After(s, actions); Spared(n.log, from) && d in n.sessions && n.info.Some?
    decreases |actions|
  {
    if actions != [] {
      CommandSparesOnce(s, at, d, actions[0], from);
      hide Step, Spared, GoesOn;
      CommandSparesTheOwner(Step(s, actions[0]), at, d, actions[1..], from);
    }
  }

  lemma CommandSparesOnce(s: State, at: real, d: Device, a: Action, from: nat)
    requires s.info.Some? && d in s.sessions && s.sessions[d].busy && s.sessions[d].lastIo >= at && s.clock >= at
    requires Enabled(s, a) && Spared(s.log, from) && GoesOn(a, d, at)
    ensures var n := Step(s, a);
            && Spared(n.log, from) && n.info.Some? && n.clock >= at
            && d in n.sessions && n.sessions[d].busy && n.sessions[d].lastIo >= at
  {
    if a.Tick? { TickDecides(s, a.now); }
  }

  // ---- ticks further apart ------------------------------------------------------

  /** One idle session, connected at time zero and not heard of since. */
  function Quiet(tick: real): State {
    State(tick, tick, map["d" := Session(false, 0.0)], Some(Info(0.0, false, false)), [Activity(0.0)])
  }

  /** Ticks every 30 seconds from one number of them to another. */
  function Ticks(first: nat, last: nat): seq<Action>
    decreases last - first
  {
    if first >= last then [] else [Tick((first + 1) as real * 30.0)] + Ticks(first + 1, last)
  }

  ghost predicate RunsTo(s: State, actions: seq<Action>, gap: real, t: State) {
    IsRun(s, actions) && Prompt(s, actions, gap) && After(s, actions) == t
  }

  lemma RunsOn(s: State, a: Action, rest: seq<Action>, gap: real, t: State)
    requires Enabled(s, a) && InTime(s, a, gap) && RunsTo(Step(s, a), rest, gap, t)
    ensures RunsTo(s, [a] + rest, gap, t)
  {
    assert ([a] + rest)[0] == a && ([a] + rest)[1..] == rest;
  }

  lemma QuietTick(tick: real, now: real)
    requires tick <= now < IDLE_WARN_SECONDS
    ensures Step(Quiet(tick), Tick(now)) == Quiet(now)
  {
    assert "d" in Quiet(tick).sessions && !Lively(Quiet(tick), now) && !Busy(Quiet(tick));
  }

  lemma {:induction false} QuietTicks(first: nat, last: nat, rest: seq<Action>, gap: real, t: State)
    requires first <= last <= 8 && gap >= 30.0 && RunsTo(Quiet(last as real * 30.0), rest, gap, t)
    ensures RunsTo(Quiet(first as real * 30.0), Ticks(first, last) + rest, gap, t)
    decreases 8 - first
  {
    hide RunsTo;
    if first == last {
      assert Ticks(first, last) + rest == rest;
    } else {
      var now := (first + 1) as real * 30.0;
      QuietTicks(first + 1, last, rest, gap, t);
      QuietTick(first as real * 30.0, now);
      RunsOn(Quiet(first as real * 30.0), Tick(now), Ticks(first + 1, last) + rest, gap, t);
      assert Ticks(first, last) + rest == [Tick(now)] + (Ticks(first + 1, last) + rest);
    }
  }

  /** A longer gap lets an owner be disconnected with no warning at all. */
  lemma WiderGapSkipsTheWarning(gap: real) returns (actions: seq<Action>)
    requires gap > NOTICE
    ensures IsRun(START, actions) && Prompt(START, actions, gap) && !FairDisconnects(After(START, actions).log)
  {
    var late := if gap < 60.0 then 300.0 - gap else 240.0;
    var t := Step(Quiet(late), Tick(300.0));
    assert RunsTo(t, [], gap, t);
    RunsOn(Quiet(late), Tick(300.0), [], gap, t);
    QuietTick(240.0, late);
    RunsOn(Quiet(240.0), Tick(late), [Tick(300.0)] + [], gap, t);
    var rest := [Tick(late)] + ([Tick(300.0)] + []);
    QuietTicks(0, 8, rest, gap, t);
    assert Step(START, Connect("d", 0.0)) == Quiet(0.0);
    RunsOn(START, Connect("d", 0.0), Ticks(0, 8) + rest, gap, t);
    actions := [Connect("d", 0.0)] + (Ticks(0, 8) + rest);
    assert t.log == [Activity(0.0), TimedOut(300.0)];
    NoWarningThere(t.log);
  }

  lemma NoWarningThere(log: seq<Event>)
    requires log == [Activity(0.0), TimedOut(300.0)]
    ensures !FairDisconnects(log)
  {
    assert log[1].TimedOut? && log[..1] == [Activity(0.0)];
    assert Warnings([Activity(0.0)]) == [];
  }

  /** Thirty seconds, the time from the warning to the disconnect, is exactly how
      far apart ticks may be for every disconnect to be warned of. */
  lemma WarnedExactlyUpToTheNotice(gap: real)
    ensures (forall actions: seq<Action> :: IsRun(START, actions) && Prompt(START, actions, gap) ==>
               FairDisconnects(After(START, actions).log))
            <==> gap <= NOTICE
  {
    if gap <= NOTICE {
      forall actions: seq<Action> | IsRun(START, actions) && Prompt(START, actions, gap)
        ensures FairDisconnects(After(START, actions).log)
      {
        EveryDisconnectIsWarnedOnce(actions, gap);
      }
    } else {
      var actions := WiderGapSkipsTheWarning(gap);
    }
  }

  // ---- connecting next to a silent command --------------------------------------------

  predicate EndsWarned(log: seq<Event>, now: real) { log != [] && log[|log| - 1] == Warned(now, Whole(NOTICE)) }

  /** Connecting a device is a sign of life, yet the next tick warns the owner if
      and only if commands are running and all of them are silent: the fresh entry
      has forgotten that silence was marked. */
  lemma ConnectIsWarnedExactlyIfSilent(s: State, d: Device, at: real, now: real)
    requires s.clock <= at <= now < at + IDLE_WARN_SECONDS
    ensures var n := Step(s, Connect(d, at)); EndsWarned(Step(n, Tick(now)).log, now) <==> Busy(n) && !Lively(n, now)
  {
    hide Busy, Lively;
    assert d in Step(s, Connect(d, at)).sessions;
  }

  function LivelyLog(ticks: nat): seq<Event> {
    if ticks == 0 then [Activity(0.0)] else LivelyLog(ticks - 1) + [Activity(ticks as real * 30.0)]
  }

  /** A command started at time zero that wrote nothing, after so many ticks. */
  function LivelyAt(ticks: nat): State {
    var now := ticks as real * 30.0;
    State(now, now, map["a" := Session(true, 0.0)], Some(Info(now, false, false)), LivelyLog(ticks))
  }

  lemma LivelyTick(ticks: nat)
    requires ticks < 59
    ensures var next := Tick((ticks + 1) as real * 30.0);
            Enabled(LivelyAt(ticks), next) && InTime(LivelyAt(ticks), next, NOTICE) &&
                Step(LivelyAt(ticks), next) == LivelyAt(ticks + 1)
  {
    hide LivelyLog;
    assert LivelyLog(ticks + 1) == LivelyLog(ticks) +
        [Activity((ticks + 1) as real * 30.0)] by { LivelyLogNext(ticks); }
    assert "a" in LivelyAt(ticks).sessions && Lively(LivelyAt(ticks), (ticks + 1) as real * 30.0);
  }

  lemma LivelyLogNext(ticks: nat)
    ensures LivelyLog(ticks + 1) == LivelyLog(ticks) + [Activity((ticks + 1) as real * 30.0)]
  {
  }

  lemma {:induction false} LivelyTicks(first: nat, rest: seq<Action>, t: State)
    requires first <= 59 && RunsTo(LivelyAt(59), rest, NOTICE, t)
    ensures RunsTo(LivelyAt(first), Ticks(first, 59) + rest, NOTICE, t)
    decreases 59 - first
  {
    hide RunsTo, LivelyAt, Step, InTime, Enabled;
    if first == 59 {
      assert Ticks(first, 59) + rest == rest;
    } else {
      var now := (first + 1) as real * 30.0;
      LivelyTicks(first + 1, rest, t);
      LivelyTick(first);
      RunsOn(LivelyAt(first), Tick(now), Ticks(first + 1, 59) + rest, NOTICE, t);
      assert Ticks(first, 59) + rest == [Tick(now)] + (Ticks(first + 1, 59) + rest);
    }
  }

  lemma SilentTick(s: State, now: real)
    requires s.info.Some? && !s.info.value.silent && Busy(s) && !Lively(s, now) && now >= s.clock
    ensures var t := Step(s, Tick(now));
            && t.log == s.log + [Warned(now, Whole(NOTICE))] && t.info.Some? && t.info.value.silent
            && t.sessions == s.sessions && t.clock == t.lastTick == now
  {
    hide Busy, Lively;
    assert s.sessions != map[] by { BusyHasSessions(s); }
  }

  lemma BusyHasSessions(s: State)
    requires Busy(s)
    ensures s.sessions != map[]
  {
  }

  lemma OneSilent(s: State, now: real)
    requires "a" in s.sessions && s.sessions["a"] == Session(true, 0.0) && now >= 1800.0
    requires forall d :: d in s.sessions && d != "a" ==> !s.sessions[d].busy
    ensures Busy(s) && !Lively(s, now)
  {
  }

  /** The last part of such a run. */
  lemma SilentThenConnect()
    ensures var s2 := LivelyAt(59);
            var s3 := Step(s2, Tick(1800.0));
            var s4 := Step(s3, Connect("b", 1801.0));
            var s5 := Step(s4, Tick(1802.0));
            && Enabled(s2, Tick(1800.0)) && InTime(s2, Tick(1800.0), NOTICE)
            && Enabled(s3, Connect("b", 1801.0)) && InTime(s3, Connect("b", 1801.0), NOTICE)
            && Enabled(s4, Tick(1802.0)) && InTime(s4, Tick(1802.0), NOTICE)
            && s5.log == LivelyLog(59) + [Warned(1800.0, 30)] + [Activity(1801.0)] + [Warned(1802.0, 30)]
  {
    var s2 := LivelyAt(59);
    var s3 := Step(s2, Tick(1800.0));
    hide LivelyLog, Busy, Lively;
    OneSilent(s2, 1800.0);
    SilentTick(s2, 1800.0);
    var s4 := Step(s3, Connect("b", 1801.0));
    assert s4.log == s3.log + [Activity(1801.0)] && s4.lastTick == 1800.0;
    OneSilent(s4, 1802.0);
    SilentTick(s4, 1802.0);
  }

  /** Such a run: warned when the command falls silent, and again two seconds
      later because a second device was connected in between. */
  lemma SecondConnectWarnsAgain() returns (actions: seq<Action>)
    ensures IsRun(START, actions) && Prompt(START, actions, NOTICE)
    ensures After(START, actions).log ==
              LivelyLog(59) + [Warned(1800.0, 30)] + [Activity(1801.0)] + [Warned(1802.0, 30)]
  {
    FirstSteps();
    SilentThenConnect();
    hide *;
    var s0 := Step(START, Connect("a", 0.0));
    var connect, tick := Connect("b", 1801.0), Tick(1802.0);
    var s2 := LivelyAt(59);
    var s3 := Step(s2, Tick(1800.0));
    var s4 := Step(s3, connect);
    var s5 := Step(s4, tick);
    RunsNothing(s5, NOTICE);
    RunsOn(s4, tick, [], NOTICE, s5);
    RunsOn(s3, connect, [tick] + [], NOTICE, s5);
    RunsOn(s2, Tick(1800.0), [connect] + ([tick] + []), NOTICE, s5);
    var rest := [Tick(1800.0)] + ([connect] + ([tick] + []));
    LivelyTicks(0, rest, s5);
    RunsOn(s0, StartRun("a", 0.0), Ticks(0, 59) + rest, NOTICE, s5);
    RunsOn(START, Connect("a", 0.0), [StartRun("a", 0.0)] + (Ticks(0, 59) + rest), NOTICE, s5);
    actions := [Connect("a", 0.0)] + ([StartRun("a", 0.0)] + (Ticks(0, 59) + rest));
    RunsToMeans(START, actions, NOTICE, s5);
  }

  lemma FirstSteps()
    ensures Enabled(START, Connect("a", 0.0)) && InTime(START, Connect("a", 0.0), NOTICE)
    ensures var s0 := Step(START, Connect("a", 0.0));
            && Enabled(s0, StartRun("a", 0.0)) && InTime(s0, StartRun("a", 0.0), NOTICE)
            && Step(s0, StartRun("a", 0.0)) == LivelyAt(0)
  {
  }

  lemma RunsNothing(s: State, gap: real)
    ensures RunsTo(s, [], gap, s)
  {
  }

  lemma RunsToMeans(s: State, actions: seq<Action>, gap: real, t: State)
    requires RunsTo(s, actions, gap, t)
    ensures IsRun(s, actions) && Prompt(s, actions, gap) && After(s, actions) == t
  {
  }

  // ---- the manager's part for one owner -----------------------------------------

  class OwnerActivity {
    var clock: real
    var lastTick: real
    var sessions: map<Device, Session>
    var info: Option<Info>
    var pushed: seq<Event>

    function Value(): State reads this { State(clock, lastTick, sessions, info, pushed) }

    constructor ()
      ensures Value() == START && Inv(Value())
    {
      clock, lastTick, sessions, info, pushed := 0.0, 0.0, map[], None, [];
      new;
      assert Inv(START);
    }

    method OwnerReset(now: real)
      requires now == clock
      modifies this
      ensures Value() == Reset(old(Value()), now) && (Inv(old(Value())) ==> Inv(Value()))
      ensures old(info).Some? ==> info == Some(Info(now, false, old(info).value.silent))
      ensures sessions == old(sessions) && (old(info).None? ==> info == None)
    {
      if Inv(Value()) { ResetKeepsInv(Value(), now); }
      if info.Some? {
        info := Some(info.value.(lastActive := now, warned := false));
        pushed := pushed + [Activity(now)];
      }
    }

    /** The end of a successful connect. */
    method Connected(device: Device, now: real)
      requires now >= clock
      modifies this
      ensures Value() == Step(old(Value()), Connect(device, now)) && (Inv(old(Value())) ==> Inv(Value()))
      ensures info == Some(Info(now, false, false)) && sessions == old(sessions)[device := Session(false, now)]
      ensures lastTick == (if old(info).None? then now else old(lastTick)) && clock == now
    {
      if Inv(Value()) { TouchKeepsInv(Value(), device, now); }
      if info.None? {
        lastTick := now;
      }
      clock := now;
      sessions := sessions[device := Session(false, now)];
      info := Some(Info(now, false, false));
      pushed := pushed + [Activity(now)];
    }

    /** `stay_connected`: the owner and all running commands count as active now. */
    method StayConnected(now: real)
      requires now >= clock
      modifies this
      ensures Value() == Step(old(Value()), Stay(now)) && (Inv(old(Value())) ==> Inv(Value()))
      ensures sessions.Keys == old(sessions).Keys
      ensures forall d :: d in sessions ==>
                sessions[d] == if old(sessions)[d].busy then Session(true, now) else old(sessions)[d]
      ensures old(info).Some? ==> info == Some(Info(now, false, old(info).value.silent))
    {
      hide Inv;
      if Inv(Value()) { StayKeepsInv(Value(), now); }
      clock := now;
      sessions := map d | d in sessions :: if sessions[d].busy then sessions[d].(lastIo := now) else sessions[d];
      if info.Some? {
        info := Some(info.value.(lastActive := now, warned := false));
        pushed := pushed + [Activity(now)];
      }
    }

    /** `tick_idle`, for this owner. */
    method TickIdle(now: real)
      requires now >= clock
      modifies this
      ensures Value() == Step(old(Value()), Tick(now))
      ensures Inv(old(Value())) && InTime(old(Value()), Tick(now), NOTICE) ==> Inv(Value())
    {
      hide Inv, Lively, Busy;
      if Inv(Value()) && InTime(Value(), Tick(now), NOTICE) { TickKeepsInv(Value(), now); }
      var lively := Lively(Value(), now);
      var busy := Busy(Value());
      clock, lastTick := now, now;
      if info.None? {
        return;
      }
      if sessions == map[] {
        info := None;
        return;
      }
      if lively {
        info := Some(Info(now, false, false));
        pushed := pushed + [Activity(now)];
        return;
      }
      if busy && !info.value.silent {
        info := Some(Info(now - IDLE_WARN_SECONDS, false, true));
      }
      var idle := now - info.value.lastActive;
      if idle >= IDLE_TIMEOUT_SECONDS {
        sessions := map[];
        pushed := pushed + [TimedOut(now)];
        info := None;
      } else if idle >= IDLE_WARN_SECONDS && !info.value.warned {
        var remaining := Whole(IDLE_TIMEOUT_SECONDS - idle);
        pushed := pushed + [Warned(now, remaining)];
        info := Some(info.value.(warned := true));
      }
    }
  }
}
