/** The mirrored configuration save of persistence.py as a crash-recovery
    protocol over two files, a cache and a read-only recovery mode. */
module Persistences {
  import opened Common

  /** An inventory; its content is opaque here. */
  type Devices = seq<string>

  /** `_parse_devices`, which may raise, and the rendering `_save` writes. */
  datatype Format = Format(parse: string -> Option<Devices>, render: Devices -> string)

  // ---- the disk ---------------------------------------------------------------

  /** A file: what a reader sees now, and everything a power loss may leave
      there while a replace has not reached the disk. */
  datatype File = File(current: Option<string>, possible: set<Option<string>>) {
    predicate Valid() { current in possible }

    function Replaced(contents: string): File { File(Some(contents), possible + {Some(contents)}) }

    function Synced(): File { File(current, {current}) }
  }

  datatype Disk = Disk(primary: File, backup: File) {
    predicate Valid() { primary.Valid() && backup.Valid() }

    /** `fsync` on the data directory settles both entries. */
    function Synced(): Disk { Disk(primary.Synced(), backup.Synced()) }
  }

  // ---- the process --------------------------------------------------------------

  /** What the process is doing between two steps of the protocol. */
  datatype Work =
    | Idle
    | Saving(devices: Devices, contents: string, stage: Stage)
    | Repairing(payload: string, loaded: Devices, step: Stage, startup: bool)

  /** Where a replace stands. `Reading` is the proof that a repair can load. */
  datatype Stage = WritingPrimary | PrimaryReplaced | WritingBackup | BackupReplaced | Reading

  /** `cache`, `recovery` and `retained` are the runtime state; `promised` is the
      payload of the last save that returned True and `later` what was
      attempted since; `answer` is what the last finished save returned. */
  datatype System = System(disk: Disk, cache: Devices, recovery: bool, retained: Option<string>, work: Work,
                           promised: Option<string>, later: set<string>, answer: Option<bool>)

  /** How an attempt to read a file turns out. */
  datatype Read = NotFound | Unreadable | Text(text: string)

  function ReadFile(file: File, readable: bool): Read {
    match file.current
    case None => NotFound
    case Some(text) => if readable then Text(text) else Unreadable
  }

  function Load(f: Format, file: File, readable: bool): Option<Devices> {
    var r := ReadFile(file, readable);
    if r.Text? then f.parse(r.text) else None
  }

  datatype Action =
    | BeginSave(devices: Devices)
    | Proceed(readable: bool)
    | Fail
    | BeginRetry
    | Crash(primary: Option<string>, backup: Option<string>, primaryReadable: bool, backupReadable: bool)

  /** `_save` up to its first write. */
  function StartSave(f: Format, s: System, devices: Devices): System {
    var contents := f.render(devices);
    if s.recovery || f.parse(contents).None? then s.(answer := Some(false))
    else s.(work := Saving(devices, contents, WritingPrimary), later := s.later + {contents})
  }

  /** The next step of a save that meets no error. */
  function ContinueSave(s: System): System
    requires s.work.Saving?
  {
    var w := s.work;
    match w.stage
    case WritingPrimary =>
      s.(disk := s.disk.(primary := s.disk.primary.Replaced(w.contents)), cache := w.devices,
          work := w.(stage := PrimaryReplaced))
    case PrimaryReplaced => s.(disk := s.disk.Synced(), work := w.(stage := WritingBackup))
    case WritingBackup => s.(disk := s.disk.(backup := s.disk.backup.Replaced(w.contents)),
        work := w.(stage := BackupReplaced))
    case _ => s.(disk := s.disk.Synced(), work := Idle, answer := Some(true), promised := Some(w.contents), later := {})
  }

  /** The next step of a repair; it succeeds once the replaced primary loads. */
  function ContinueRepair(f: Format, s: System, readable: bool): System
    requires s.work.Repairing?
  {
    var w := s.work;
    match w.step
    case WritingPrimary => s.(disk := s.disk.(primary := s.disk.primary.Replaced(w.payload)),
        work := w.(step := PrimaryReplaced))
    case PrimaryReplaced => s.(disk := s.disk.Synced(), work := w.(step := Reading))
    case _ => if Load(f, s.disk.primary, readable).Some? then EndRepair(s, true) else EndRepair(s, false)
  }

  function EndRepair(s: System, repaired: bool): System
    requires s.work.Repairing?
  {
    var w := s.work;
    if repaired then
      s.(cache := if w.startup then w.loaded else s.cache, recovery := false, retained := None, work := Idle)
    else if w.startup then s.(cache := w.loaded, recovery := true, retained := Some(w.payload), work := Idle)
    else s.(work := Idle)
  }

  /** `_load_startup_devices` on what the crash left, up to a repair. */
  function Boot(f: Format, s: System, primaryReadable: bool, backupReadable: bool): System {
    var booted := s.(cache := [], recovery := false, retained := None, work := Idle, answer := None);
    var primary, backup := Load(f, s.disk.primary, primaryReadable), Load(f, s.disk.backup, backupReadable);
    if primary.Some? then booted.(cache := primary.value)
    else if backup.Some? then
      booted.(work := Repairing(ReadFile(s.disk.backup, backupReadable).text, backup.value, WritingPrimary, true))
    else if s.disk.primary.current.None? && s.disk.backup.current.None? then booted
    else booted.(recovery := true)
  }

  predicate Enabled(s: System, a: Action) {
    match a
    case BeginSave(_) => s.work.Idle?
    case Proceed(_) => !s.work.Idle?
    case Fail => !s.work.Idle?
    case BeginRetry => s.work.Idle?
    case Crash(primary, backup, _, _) => primary in s.disk.primary.possible && backup in s.disk.backup.possible
  }

  function Step(f: Format, s: System, a: Action): System
    requires Enabled(s, a)
  {
    match a
    case BeginSave(devices) => StartSave(f, s, devices)
    case Proceed(readable) => if s.work.Saving? then ContinueSave(s) else ContinueRepair(f, s, readable)
    case Fail => if s.work.Saving? then s.(work := Idle, answer := Some(false)) else EndRepair(s, false)
    case BeginRetry =>
      if s.recovery && s.retained.Some? then s.(work := Repairing(s.retained.value, s.cache, WritingPrimary, false))
      else s
    case Crash(primary, backup, primaryReadable, backupReadable) =>
      Boot(f, s.(disk := Disk(File(primary, {primary}), File(backup, {backup}))), primaryReadable, backupReadable)
  }

  // ---- invariants -----------------------------------------------------------------

  /** The payloads a startup may load once a save has returned True. */
  function Acceptable(s: System): set<string> {
    s.later + if s.promised.Some? then {s.promised.value} else {}
  }

  ghost predicate HoldsOnly(file: File, contents: set<string>) {
    forall c :: c in file.possible ==> c.Some? && c.value in contents
  }

  /** The cache is what the primary says. */
  predicate Mirrors(f: Format, s: System) {
    match s.disk.primary.current
    case None => s.cache == []
    case Some(text) => f.parse(text) == Some(s.cache) || f.render(s.cache) == text
  }

  ghost predicate WorkInv(f: Format, s: System) {
    match s.work
    case Idle => true
    case Saving(devices, contents, stage) =>
      && !s.recovery && stage != Reading && contents in s.later && contents == f.render(devices)
      && (stage != WritingPrimary ==> s.disk.primary.current == Some(contents) && s.cache == devices)
      && (stage in {WritingBackup, BackupReplaced} ==> s.disk.primary == s.disk.primary.Synced())
      && (stage == BackupReplaced ==> s.disk.backup.current == Some(contents))
    case Repairing(payload, loaded, step, startup) =>
      && s.disk.backup == File(Some(payload), {Some(payload)}) && f.parse(payload) == Some(loaded)
      && step in {WritingPrimary, PrimaryReplaced, Reading}
      && (step != WritingPrimary ==> s.disk.primary.current == Some(payload))
      && (step == Reading ==> s.disk.primary == s.disk.primary.Synced())
      && (startup ==> !s.recovery) && (!startup ==> s.recovery && s.retained == Some(payload) && s.cache == loaded)
  }

  ghost predicate Inv(f: Format, s: System) {
    && s.disk.Valid() && WorkInv(f, s)
    && (forall c :: c in Acceptable(s) ==> f.parse(c).Some?)
    && (s.promised.Some? ==> HoldsOnly(s.disk.primary, Acceptable(s)) && HoldsOnly(s.disk.backup, Acceptable(s)))
    && (!s.recovery && !s.work.Repairing? ==> Mirrors(f, s))
    && (s.recovery && s.retained.Some? ==>
          s.disk.backup == File(s.retained, {s.retained}) && f.parse(s.retained.value) == Some(s.cache))
  }

  lemma SaveKeepsInv(f: Format, s: System)
    requires Inv(f, s) && s.work.Saving?
    ensures Inv(f, ContinueSave(s))
  {
  }

  lemma RepairKeepsInv(f: Format, s: System, readable: bool)
    requires Inv(f, s) && s.work.Repairing?
    ensures Inv(f, ContinueRepair(f, s, readable)) && Inv(f, EndRepair(s, false))
  {
  }

  lemma BootKeepsInv(f: Format, s: System, primaryReadable: bool, backupReadable: bool)
    requires s.disk.primary == s.disk.primary.Synced() && s.disk.backup == s.disk.backup.Synced()
    requires forall c :: c in Acceptable(s) ==> f.parse(c).Some?
    requires s.promised.Some? ==> HoldsOnly(s.disk.primary, Acceptable(s)) && HoldsOnly(s.disk.backup, Acceptable(s))
    ensures Inv(f, Boot(f, s, primaryReadable, backupReadable))
  {
  }

  /** Every step keeps the invariant, wherever a crash strikes. */
  lemma StepKeepsInv(f: Format, s: System, a: Action)
    requires Inv(f, s) && Enabled(s, a)
    ensures Inv(f, Step(f, s, a))
  {
    match a
    case BeginSave(devices) =>
    case Proceed(readable) => if s.work.Saving? { SaveKeepsInv(f, s); } else { RepairKeepsInv(f, s, readable); }
    case Fail => if s.work.Repairing? { RepairKeepsInv(f, s, false); }
    case BeginRetry =>
    case Crash(primary, backup, primaryReadable, backupReadable) =>
      BootKeepsInv(f, s.(disk := Disk(File(primary, {primary}), File(backup, {backup}))), primaryReadable,
          backupReadable);
  }

  // ---- whole runs ---------------------------------------------------------------------

  ghost predicate IsRun(f: Format, s: System, actions: seq<Action>)
    decreases |actions|
  {
    actions == [] || (Enabled(s, actions[0]) && IsRun(f, Step(f, s, actions[0]), actions[1..]))
  }

  function Run(f: Format, s: System, actions: seq<Action>): System
    requires IsRun(f, s, actions)
    decreases |actions|
  {
    if actions == [] then s else Run(f, Step(f, s, actions[0]), actions[1..])
  }

  /** A machine switched on over any two files. */
  function PoweredOn(f: Format, primary: Option<string>, backup: Option<string>, primaryReadable: bool,
      backupReadable: bool): System {
    var disk := Disk(File(primary, {primary}), File(backup, {backup}));
    Boot(f, System(disk, [], false, None, Idle, None, {}, None), primaryReadable, backupReadable)
  }

  lemma {:induction false} RunKeepsInv(f: Format, s: System, actions: seq<Action>)
    requires Inv(f, s) && IsRun(f, s, actions)
    ensures Inv(f, Run(f, s, actions))
    decreases |actions|
  {
    if actions != [] {
      StepKeepsInv(f, s, actions[0]);
      RunKeepsInv(f, Step(f, s, actions[0]), actions[1..]);
    }
  }

  lemma ReachableInv(f: Format, primary: Option<string>, backup: Option<string>, pr: bool, br: bool,
      actions: seq<Action>)
    requires IsRun(f, PoweredOn(f, primary, backup, pr, br), actions)
    ensures Inv(f, Run(f, PoweredOn(f, primary, backup, pr, br), actions))
  {
    var disk := Disk(File(primary, {primary}), File(backup, {backup}));
    BootKeepsInv(f, System(disk, [], false, None, Idle, None, {}, None), pr, br);
    RunKeepsInv(f, PoweredOn(f, primary, backup, pr, br), actions);
  }

  /** The inventory a startup has read, before or after its repair. */
  function Loaded(s: System): Devices {
    if s.work.Repairing? then s.work.loaded else s.cache
  }

  /** Crash safety: once a save has returned True, stopping at any step of any
      later sequence of saves, repairs and crashes, the next startup that can
      read either file loads the payload of that save or of a later attempt. */
  lemma StartupLoadsPromised(f: Format, primary: Option<string>, backup: Option<string>, pr: bool, br: bool,
      actions: seq<Action>, crash: Action)
    requires IsRun(f, PoweredOn(f, primary, backup, pr, br), actions)
    requires crash.Crash? && Enabled(Run(f, PoweredOn(f, primary, backup, pr, br), actions), crash)
    requires Run(f, PoweredOn(f, primary, backup, pr, br), actions).promised.Some?
    requires crash.primaryReadable || crash.backupReadable
    ensures var s := Run(f, PoweredOn(f, primary, backup, pr, br), actions);
            var booted := Step(f, s, crash);
            !booted.recovery && exists payload :: payload in Acceptable(s) && f.parse(payload) == Some(Loaded(booted))
  {
    var s := Run(f, PoweredOn(f, primary, backup, pr, br), actions);
    ReachableInv(f, primary, backup, pr, br, actions);
    assert crash.primary.Some? && crash.primary.value in Acceptable(s);
    assert crash.backup.Some? && crash.backup.value in Acceptable(s);
  }

  /** The file is there, can be read and parses. */
  predicate Loads(f: Format, contents: Option<string>, readable: bool) {
    contents.Some? && readable && f.parse(contents.value).Some?
  }

  /** A healthy primary is what a startup uses, whatever the backup holds, and neither
      file is touched. */
  lemma StartupTrustsPrimary(f: Format, s: System, crash: Action)
    requires crash.Crash? && Enabled(s, crash) && Loads(f, crash.primary, crash.primaryReadable)
    ensures var booted := Step(f, s, crash);
            && booted.work.Idle? && !booted.recovery && booted.retained.None?
            && f.parse(crash.primary.value) == Some(booted.cache)
            && booted.disk == Disk(File(crash.primary, {crash.primary}), File(crash.backup, {crash.backup}))
  {
  }

  /** The backup is used, and goes back into the primary, if and only if the primary
      does not load and the backup does. Without either, the inventory is empty, and
      the process read-only exactly when there is a file to protect. */
  lemma StartupUsesBackupExactly(f: Format, s: System, crash: Action)
    requires crash.Crash? && Enabled(s, crash)
    ensures var booted := Step(f, s, crash);
            var useBackup := !Loads(f, crash.primary, crash.primaryReadable) &&
                             Loads(f, crash.backup, crash.backupReadable);
            && (booted.work.Repairing? <==> useBackup)
            && (useBackup ==> (
                  && booted.work.payload == crash.backup.value && booted.work.startup
                  && f.parse(crash.backup.value) == Some(booted.work.loaded) && booted.work.step == WritingPrimary))
            && booted.disk == Disk(File(crash.primary, {crash.primary}), File(crash.backup, {crash.backup}))
    ensures var booted := Step(f, s, crash);
            !Loads(f, crash.primary, crash.primaryReadable) && !Loads(f, crash.backup, crash.backupReadable) ==>
              booted.work.Idle? && booted.cache == [] && booted.retained.None? &&
              (booted.recovery <==> crash.primary.Some? || crash.backup.Some?)
  {
  }

  /** When neither file can be read nothing is lost: the files stay as they are
      behind the read-only mode. */
  lemma UnreadableStartupKeepsFiles(f: Format, s: System, crash: Action)
    requires Inv(f, s) && s.promised.Some? && crash.Crash? && Enabled(s, crash)
    requires !crash.primaryReadable && !crash.backupReadable
    ensures var booted := Step(f, s, crash);
            && booted.recovery && booted.retained.None? && booted.work.Idle?
            && booted.disk.primary.current == crash.primary && booted.disk.backup.current == crash.backup
  {
    assert crash.primary.Some?;
  }

  /** A save answers True only when both files hold exactly its payload, on the
      disk as well as for readers. */
  lemma TrueSaveIsMirrored(f: Format, s: System, a: Action)
    requires Inv(f, s) && Enabled(s, a) && s.work.Saving?
    requires Step(f, s, a).answer == Some(true) && Step(f, s, a).work.Idle?
    ensures var after := Step(f, s, a); var both := File(Some(s.work.contents), {Some(s.work.contents)});
            && after.disk == Disk(both, both) && s.work.contents == f.render(s.work.devices)
            && after.cache == s.work.devices && after.promised == Some(s.work.contents) && after.later == {}
  {
  }

  // ---- recovery mode ------------------------------------------------------------------------

  /** One step in recovery mode leaves the backup alone, puts nothing but the
      retained payload into the primary, and ends the mode only when that
      payload is there, on the disk, and loads. */
  lemma RecoveryStep(f: Format, s: System, a: Action)
    requires Inv(f, s) && s.recovery && Enabled(s, a) && !a.Crash?
    ensures var after := Step(f, s, a);
            && after.disk.backup == s.disk.backup && after.cache == s.cache
            && (after.disk.primary.current == s.disk.primary.current
                || (s.retained.Some? && after.disk.primary.current == s.retained))
            && (if after.recovery then after.retained == s.retained
                else s.retained.Some? && after.disk.primary == File(s.retained, {s.retained})
                     && f.parse(s.retained.value) == Some(after.cache))
            && (a.BeginSave? ==> after == s.(answer := Some(false)))
  {
  }

  /** The same over any run without a power loss that stays in the mode. */
  lemma {:induction false} RecoveryProtectsFiles(f: Format, s: System, actions: seq<Action>)
    requires Inv(f, s) && s.recovery && IsRun(f, s, actions)
    requires forall i :: 0 <= i < |actions| ==> !actions[i].Crash?
    requires Run(f, s, actions).recovery
    ensures var after := Run(f, s, actions);
            && after.disk.backup == s.disk.backup && after.cache == s.cache && after.retained == s.retained
            && (after.disk.primary.current == s.disk.primary.current
                || (s.retained.Some? && after.disk.primary.current == s.retained))
    decreases |actions|
  {
    if actions != [] {
      var next := Step(f, s, actions[0]);
      StepKeepsInv(f, s, actions[0]);
      RecoveryStep(f, s, actions[0]);
      if next.recovery {
        RecoveryProtectsFiles(f, next, actions[1..]);
      } else {
        RecoveryDoesNotReturn(f, next, actions[1..]);
      }
    }
  }

  /** Only a startup enters recovery mode. */
  lemma {:induction false} RecoveryDoesNotReturn(f: Format, s: System, actions: seq<Action>)
    requires Inv(f, s) && !s.recovery && !s.work.Repairing? && IsRun(f, s, actions)
    requires forall i :: 0 <= i < |actions| ==> !actions[i].Crash?
    ensures !Run(f, s, actions).recovery
    decreases |actions|
  {
    if actions != [] {
      StepKeepsInv(f, s, actions[0]);
      RecoveryDoesNotReturn(f, Step(f, s, actions[0]), actions[1..]);
    }
  }

  /** Outside recovery mode the cache always mirrors the primary file. */
  lemma CacheMirrorsPrimary(f: Format, primary: Option<string>, backup: Option<string>, pr: bool, br: bool,
      actions: seq<Action>)
    requires IsRun(f, PoweredOn(f, primary, backup, pr, br), actions)
    ensures var s := Run(f, PoweredOn(f, primary, backup, pr, br), actions);
            !s.recovery && s.work.Idle? ==> Mirrors(f, s)
  {
    ReachableInv(f, primary, backup, pr, br, actions);
  }

  // ---- the module's functions -----------------------------------------------------------------

  /** Where writing one private payload raises, if it does. */
  datatype Fault = NoFault | BeforeReplace | AfterReplace

  /** The steps one whole `_save` takes under these faults. */
  function SaveActions(devices: Devices, primary: Fault, backup: Fault): seq<Action> {
    var go := Proceed(true);
    match (primary, backup)
    case (BeforeReplace, _) => [BeginSave(devices), Fail]
    case (AfterReplace, _) => [BeginSave(devices), go, Fail]
    case (NoFault, BeforeReplace) => [BeginSave(devices), go, go, Fail]
    case (NoFault, AfterReplace) => [BeginSave(devices), go, go, go, Fail]
    case (NoFault, NoFault) => [BeginSave(devices), go, go, go, go]
  }

  /** The steps one retry takes. */
  function RetryActions(primary: Fault, readable: bool): seq<Action> {
    match primary
    case BeforeReplace => [BeginRetry, Fail]
    case AfterReplace => [BeginRetry, Proceed(true), Fail]
    case NoFault => [BeginRetry, Proceed(true), Proceed(true), Proceed(readable)]
  }

  /** The steps a repair takes, if a startup needs one. */
  function RepairActions(repair: Fault, readable: bool): seq<Action> {
    match repair
    case BeforeReplace => [Fail]
    case AfterReplace => [Proceed(true), Fail]
    case NoFault => [Proceed(true), Proceed(true), Proceed(readable)]
  }

  /** What a sequence of steps does, skipping those that do not apply. */
  function Do(f: Format, s: System, actions: seq<Action>): System
    decreases |actions|
  {
    if actions == [] then s else Do(f, if Enabled(s, actions[0]) then Step(f, s, actions[0]) else s, actions[1..])
  }

  lemma {:induction false} DoOne(f: Format, s: System, a: Action, rest: seq<Action>)
    ensures Do(f, s, [a] + rest) == Do(f, if Enabled(s, a) then Step(f, s, a) else s, rest)
  {
    assert ([a] + rest)[0] == a && ([a] + rest)[1..] == rest;
  }

  class Storage {
    const f: Format
    var disk: Disk
    var cache: Devices
    var recovery: bool
    var retained: Option<string>
    ghost var promised: Option<string>
    ghost var later: set<string>
    ghost var answer: Option<bool>

    ghost function State(work: Work): System
      reads this
    {
      System(disk, cache, recovery, retained, work, promised, later, answer)
    }

    constructor (f: Format, disk: Disk)
      requires disk.Valid()
      ensures this.f == f && State(Idle) == System(disk, [], false, None, Idle, None, {}, None)
    {
      this.f, this.disk, cache, recovery, retained := f, disk, [], false, None;
      promised, later, answer := None, {}, None;
    }

    /** The replace and the `fsync` of one private file. */
    method WritePrivatePayload(toPrimary: bool, contents: string, fault: Fault) returns (ok: bool)
      modifies this`disk
      ensures ok == fault.NoFault?
      ensures var replaced := if toPrimary then old(disk).(primary := old(disk).primary.Replaced(contents))
                              else old(disk).(backup := old(disk).backup.Replaced(contents));
              disk == if fault.BeforeReplace? then old(disk)
                      else if fault.AfterReplace? then replaced else replaced.Synced()
    {
      if fault.BeforeReplace? {
        return false;
      }
      if toPrimary {
        disk := disk.(primary := disk.primary.Replaced(contents));
      } else {
        disk := disk.(backup := disk.backup.Replaced(contents));
      }
      if fault.AfterReplace? {
        return false;
      }
      disk := disk.Synced();
      ok := true;
    }

    /** `_load_startup_devices`: load the primary, else the backup, which is
        then copied back and read again. */
    method LoadStartupDevices(primaryReadable: bool, backupReadable: bool, repair: Fault, readable: bool)
      requires disk == disk.Synced()
      modifies this
      ensures State(Idle) == Do(f, Boot(f, old(State(Idle)), primaryReadable, backupReadable),
              RepairActions(repair, readable))
      ensures disk.backup == old(disk).backup
      ensures old(Loads(f, disk.primary.current, primaryReadable)) ==>
                disk == old(disk) && f.parse(disk.primary.current.value) == Some(cache) && !recovery && retained.None?
      ensures old(!Loads(f, disk.primary.current, primaryReadable) &&
                  !Loads(f, disk.backup.current, backupReadable)) ==>
                disk == old(disk) && cache == [] && retained.None? &&
                (recovery <==> disk.primary.current.Some? || disk.backup.current.Some?)
      ensures old(!Loads(f, disk.primary.current, primaryReadable) &&
                  Loads(f, disk.backup.current, backupReadable)) ==>
                var contents := disk.backup.current;
                && f.parse(contents.value) == Some(cache) && (recovery <==> !(repair.NoFault? && readable))
                && retained == (if recovery then contents else None)
                && (repair.BeforeReplace? ==> disk == old(disk))
                && (!repair.BeforeReplace? ==> disk.primary.current == contents)
                && (repair.NoFault? ==> disk.primary == File(contents, {contents}))
    {
      ghost var booted := Boot(f, State(Idle), primaryReadable, backupReadable);
      RepairUnfolds(f, booted, repair, readable);
      recovery, retained, answer := false, None, None;
      var loaded := Load(f, disk.primary, primaryReadable);
      if loaded.Some? {
        cache := loaded.value;
        return;
      }
      var backup := Load(f, disk.backup, backupReadable);
      if backup.None? {
        cache := [];
        recovery := disk.primary.current.Some? || disk.backup.current.Some?;
        return;
      }
      cache := backup.value;
      var contents := ReadFile(disk.backup, backupReadable).text;
      var ok := WritePrivatePayload(true, contents, repair);
      if ok {
        ok := Load(f, disk.primary, readable).Some?;
      }
      if !ok {
        recovery, retained := true, Some(contents);
      }
    }

    method Save(devices: Devices, primary: Fault, backup: Fault) returns (ok: bool)
      modifies this
      ensures answer == Some(ok)
      ensures State(Idle) == if old(recovery) || f.parse(f.render(devices)).None?
                             then old(State(Idle)).(answer := Some(false))
                             else Do(f, old(State(Idle)), SaveActions(devices, primary, backup))
      ensures ok <==> !old(recovery) && f.parse(f.render(devices)).Some? && primary.NoFault? && backup.NoFault?
      ensures var contents := Some(f.render(devices));
              if old(recovery) || f.parse(f.render(devices)).None? || primary.BeforeReplace? then
                disk == old(disk) && cache == old(cache)
              else
                && cache == devices && disk.primary.current == contents
                && (primary.AfterReplace? ==> disk.backup == old(disk).backup)
                && (primary.NoFault? ==> disk.primary == File(contents, {contents}))
                && (primary.NoFault? && backup.BeforeReplace? ==> disk.backup.current == old(disk).backup.current)
                && (primary.NoFault? && !backup.BeforeReplace? ==> disk.backup.current == contents)
                && (ok ==> disk.backup == File(contents, {contents}))
    {
      ghost var start := State(Idle);
      if recovery {
        answer := Some(false);
        return false;
      }
      var contents := f.render(devices);
      if f.parse(contents).None? {
        answer := Some(false);
        return false;
      }
      SaveUnfolds(f, start, devices, primary, backup);
      later := later + {contents};
      ok := WritePrivatePayload(true, contents, primary);
      if !primary.BeforeReplace? {
        cache := devices;
      }
      if ok {
        ok := WritePrivatePayload(false, contents, backup);
      }
      answer := Some(ok);
      if ok {
        promised, later := Some(contents), {};
      }
    }

    /** `retry_recovery`: nothing to do outside recovery mode, nothing it can do
        without a retained payload, and otherwise a repair from that payload. */
    method RetryRecovery(primary: Fault, readable: bool) returns (reply: RetryReply)
      modifies this
      ensures old(recovery) && old(retained).Some? ==>
                State(Idle) == Do(f, old(State(Idle)), RetryActions(primary, readable))
      ensures !(old(recovery) && old(retained).Some?) ==> State(Idle) == old(State(Idle))
      ensures reply == if !old(recovery) then NotNeeded else if old(retained).None? then NothingRetained
                       else if recovery then StillBroken else Recovered
      ensures old(recovery) && old(retained).Some? ==>
                && disk.backup.current == old(disk).backup.current && cache == old(cache)
                && (recovery <==> !(primary.NoFault? && readable && f.parse(old(retained).value).Some?))
                && retained == (if recovery then old(retained) else None)
                && disk.primary.current == (if primary.BeforeReplace? then old(disk).primary.current else old(retained))
                && (primary.NoFault? ==> disk.primary == File(old(retained), {old(retained)}))
    {
      if !recovery {
        return NotNeeded;
      }
      if retained.None? {
        return NothingRetained;
      }
      ghost var start := State(Idle);
      RetryUnfolds(f, start, primary, readable);
      var ok := WritePrivatePayload(true, retained.value, primary);
      if ok {
        ok := Load(f, disk.primary, readable).Some?;
      }
      if ok {
        recovery, retained := false, None;
        return Recovered;
      }
      return StillBroken;
    }
  }

  /** What a retry answers. */
  datatype RetryReply = NotNeeded | NothingRetained | Recovered | StillBroken

  lemma SaveUnfolds(f: Format, s: System, devices: Devices, primary: Fault, backup: Fault)
    requires s.work.Idle? && !s.recovery && f.parse(f.render(devices)).Some?
    ensures var c := f.render(devices);
            var d1 := s.disk.(primary := s.disk.primary.Replaced(c));
            var d3 := d1.Synced().(backup := d1.Synced().backup.Replaced(c));
            var tried := s.(later := s.later + {c}, answer := Some(false));
            Do(f, s, SaveActions(devices, primary, backup)) ==
            match (primary, backup)
            case (BeforeReplace, _) => tried
            case (AfterReplace, _) => tried.(disk := d1, cache := devices)
            case (NoFault, BeforeReplace) => tried.(disk := d1.Synced(), cache := devices)
            case (NoFault, AfterReplace) => tried.(disk := d3, cache := devices)
            case (NoFault, NoFault) =>
              s.(disk := d3.Synced(), cache := devices, answer := Some(true), promised := Some(c), later := {})
  {
    var go := Proceed(true);
    var s1 := Step(f, s, BeginSave(devices));
    var s2 := Step(f, s1, go);
    var s3 := Step(f, s2, go);
    var s4 := Step(f, s3, go);
    match (primary, backup)
    case (BeforeReplace, _) =>
      DoOne(f, s, BeginSave(devices), [Fail]); DoOne(f, s1, Fail, []);
    case (AfterReplace, _) =>
      DoOne(f, s, BeginSave(devices), [go, Fail]); DoOne(f, s1, go, [Fail]); DoOne(f, s2, Fail, []);
    case (NoFault, BeforeReplace) =>
      DoOne(f, s, BeginSave(devices), [go, go, Fail]); DoOne(f, s1, go, [go, Fail]); DoOne(f, s2, go, [Fail]);
      DoOne(f, s3, Fail, []);
    case (NoFault, AfterReplace) =>
      DoOne(f, s, BeginSave(devices), [go, go, go, Fail]); DoOne(f, s1, go, [go, go, Fail]);
      DoOne(f, s2, go, [go, Fail]);
      DoOne(f, s3, go, [Fail]); DoOne(f, s4, Fail, []);
    case (NoFault, NoFault) =>
      DoOne(f, s, BeginSave(devices), [go, go, go, go]); DoOne(f, s1, go, [go, go, go]); DoOne(f, s2, go, [go, go]);
      DoOne(f, s3, go, [go]); DoOne(f, s4, go, []);
  }

  lemma RepairUnfolds(f: Format, s: System, repair: Fault, readable: bool)
    requires s.work.Idle? || (s.work.Repairing? && s.work.step == WritingPrimary)
    ensures Do(f, s, RepairActions(repair, readable)) ==
            if s.work.Idle? then s
            else
              var d1 := s.disk.(primary := s.disk.primary.Replaced(s.work.payload));
              match repair
              case BeforeReplace => EndRepair(s, false)
              case AfterReplace => EndRepair(s, false).(disk := d1)
              case NoFault => EndRepair(s, Load(f, d1.Synced().primary, readable).Some?).(disk := d1.Synced())
  {
    var go := Proceed(true);
    var s1 := if s.work.Idle? then s else Step(f, s, go);
    var s2 := if s.work.Idle? then s else Step(f, s1, go);
    match repair
    case BeforeReplace => DoOne(f, s, Fail, []);
    case AfterReplace => DoOne(f, s, go, [Fail]); DoOne(f, s1, Fail, []);
    case NoFault =>
      DoOne(f, s, go, [go, Proceed(readable)]); DoOne(f, s1, go, [Proceed(readable)]);
      DoOne(f, s2, Proceed(readable), []);
  }

  lemma RetryUnfolds(f: Format, s: System, primary: Fault, readable: bool)
    requires s.work.Idle? && s.recovery && s.retained.Some?
    ensures var d1 := s.disk.(primary := s.disk.primary.Replaced(s.retained.value));
            Do(f, s, RetryActions(primary, readable)) ==
            match primary
            case BeforeReplace => s
            case AfterReplace => s.(disk := d1)
            case NoFault =>
              if Load(f, d1.Synced().primary, readable).Some? then s.(disk := d1.Synced(), recovery := false,
                  retained := None)
              else s.(disk := d1.Synced())
  {
    var go := Proceed(true);
    var s1 := Step(f, s, BeginRetry);
    var s2 := Step(f, s1, go);
    var s3 := Step(f, s2, go);
    match primary
    case BeforeReplace => DoOne(f, s, BeginRetry, [Fail]); DoOne(f, s1, Fail, []);
    case AfterReplace => DoOne(f, s, BeginRetry, [go, Fail]); DoOne(f, s1, go, [Fail]); DoOne(f, s2, Fail, []);
    case NoFault =>
      DoOne(f, s, BeginRetry, [go, go, Proceed(readable)]); DoOne(f, s1, go, [go, Proceed(readable)]);
      DoOne(f, s2, go, [Proceed(readable)]); DoOne(f, s3, Proceed(readable), []);
  }
}
