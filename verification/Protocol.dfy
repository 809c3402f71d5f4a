/** The write-ahead protocol as a state machine: frames, flush phases, disk, scrapes and crashes interleaved. */
module Protocol {
  import opened Serials
  import opened LineFit
  import opened Calibration
  import opened Accounting

  /** Where the state file lives, as far as the durable write can tell. */
  datatype StatePath = StatePath(hasParent: bool, syncsDirectories: bool) {
    /** Whether the durable write ends with a directory fsync: a parent to open, and a filesystem that has one. */
    predicate SyncsDirectory() { hasParent && syncsDirectories }
  }

  /** `settledRestarts`: a process is only ever restarted on a disk that has settled on one content. */
  datatype Env = Env(o: Config, path: StatePath, settledRestarts: bool)

  /** How far the one flush in flight has come. */
  datatype Phase =
    | Idle
    | Writing(payload: File, snapshot: map<Serial, Pending>)  // up to the rename
    | Renamed(payload: File, snapshot: map<Serial, Pending>)  // renamed, directory not yet synced
    | Returned(ok: bool, snapshot: map<Serial, Pending>)      // the write is over, the lock not yet taken
    | Applying(todo: map<Series, real>)                       // lock held, counters rising one by one

  datatype WriteStart = WriteStart(at: real, forced: bool)

  datatype Machine = Machine(
    up: bool,
    m: Shared,
    phase: Phase,
    clock: real,
    visible: Option<File>,                   // what reading the file gives
    disk: set<Option<File>>,                 // the contents a power loss may leave
    // history
    served: set<(Series, real)>,             // every value ever scraped
    base: map<Series, real>,                 // counters this process started with
    integrated: map<Series, real>,           // deltas integrated by this process
    lifetime: map<Series, real>,             // the first file's totals plus all deltas ever integrated
    restarts: nat,
    starts: seq<WriteStart>,                 // writes begun by this process
    clamps: nat)                             // frames whose deltas a ceiling cut, ever

  datatype DirSync = Synced | Failed | Skipped

  datatype Event =
    | Frame(sn: Serial, d: RealtimeData, now: real)
    | ConfigFrame(cfgSn: Serial, ratedAh: Option<real>)
    | Reserve(newSn: Serial)
    | Begin(force: bool, serializes: bool)
    | WriteFails
    | Rename
    | SyncDirectory(outcome: DirSync)
    | Resume
    | RaiseOne(series: Series)
    | Release
    | Scrape(scraped: Series)
    | Tick(seconds: real)
    | Settle
    | Die
    | PowerLoss(survivor: Option<File>)
    | Restart

  function FileTotal(f: Option<File>, t: Series): real {
    if f.Some? && t.sn in f.value.rows then Total(f.value.rows[t.sn], t.counter) else 0.0
  }

  /** The totals a file gives, as counters. */
  function TotalsIn(f: Option<File>): map<Series, real> {
    match f
    case None => map[]
    case Some(file) => RestoredCounters(file.rows, file.rows.Keys)
  }

  /** The single increments a snapshot asks for. */
  function Todo(snapshot: map<Serial, Pending>): map<Series, real> {
    map t | t in Raised(snapshot) :: PartOf(snapshot, t)
  }

  /** A process started on this file, nothing else known. */
  function Boot(env: Env, file: Option<File>): Machine {
    var m := Restored(env.o, file, 0.0);
    Machine(true, m, Idle, 0.0, file, {file}, {}, m.counters, map[], TotalsIn(file), 0, [], 0)
  }

  /** The mutex is free: the process runs and no flush is applying. */
  predicate Unlocked(s: Machine) {
    s.up && !s.phase.Applying?
  }

  /** Only one content is left to a power loss, the visible one. */
  predicate Settled(s: Machine) {
    s.disk == {s.visible}
  }

  /** The file is renamed into place: readers see it, a power loss may still bring back the others. */
  function OnRename(s: Machine): Machine
    requires s.phase.Writing?
  {
    var f := Some(s.phase.payload);
    s.(visible := f, disk := s.disk + {f}, phase := Renamed(s.phase.payload, s.phase.snapshot))
  }

  /** A new process reads whatever is visible; it does not sync what it read. */
  function OnRestart(env: Env, s: Machine): Machine {
    var m := Restored(env.o, s.visible, s.clock);
    s.(up := true, m := m, phase := Idle, base := m.counters, integrated := map[], restarts := s.restarts + 1, starts := [])
  }

  predicate Enabled(env: Env, s: Machine, e: Event) {
    match e
    case Frame(_, _, _) => Unlocked(s)
    case ConfigFrame(_, _) => Unlocked(s)
    case Reserve(_) => Unlocked(s)
    case Begin(_, _) => Unlocked(s)
    case WriteFails => s.up && s.phase.Writing?
    case Rename => s.up && s.phase.Writing?
    case SyncDirectory(outcome) => s.up && s.phase.Renamed? && (outcome.Skipped? <==> !env.path.SyncsDirectory())
    case Resume => s.up && s.phase.Returned?
    case RaiseOne(t) => s.up && s.phase.Applying? && t in s.phase.todo
    case Release => s.up && s.phase.Applying? && s.phase.todo == map[]
    case Scrape(_) => s.up
    case Tick(seconds) => seconds >= 0.0
    case Settle => true
    case Die => s.up
    case PowerLoss(f) => f in s.disk
    case Restart => !s.up && (env.settledRestarts ==> Settled(s))
  }

  /** What a frame adds to its device's pending deltas, once its slot is settled. */
  function SettledDelta(o: Config, m: Shared, sn: Serial, d: RealtimeData, now: real): Pending {
    if Integrates(o, m, sn, d) then
      DeltaAt(o, m, sn, d, d.currentA.value, OffsetFor(o, m, sn, d, d.currentA.value, now), now)
    else NO_PENDING
  }

  /** What a frame adds to its device's pending deltas. */
  function DeltaOf(o: Config, m: Shared, sn: Serial, d: RealtimeData, now: real): Pending {
    SettledDelta(o, Track(o, m, sn), sn, d, now)
  }

  /** The state after a frame that left `m'` behind and added `delta`. */
  function Framed(s: Machine, m': Shared, sn: Serial, delta: Pending): Machine {
    s.(m := m',
       integrated := Applied(s.integrated, map[sn := delta]),
       lifetime := Applied(s.lifetime, map[sn := delta]),
       clamps := if m'.rejected > s.m.rejected then s.clamps + 1 else s.clamps)
  }

  function OnFrame(env: Env, s: Machine, sn: Serial, d: RealtimeData, now: real): Machine {
    Framed(s, Realtime(env.o, s.m, sn, d, now), sn, DeltaOf(env.o, s.m, sn, d, now))
  }

  /** The state once a write has begun. */
  function Begun(s: Machine, payload: File, forced: bool): Machine {
    s.(m := s.m.(devices := Emptied(s.m.devices), writing := true),
       phase := Writing(payload, Snapshot(s.m)),
       starts := s.starts + [WriteStart(s.clock, forced)])
  }

  function OnBegin(env: Env, s: Machine, force: bool, serializes: bool): Machine {
    if Writes(env.o, s.m, force, s.clock) && serializes then Begun(s, Payload(env.o, s.m), force)
    else s.(m := BeginFlush(env.o, s.m, force, s.clock, serializes))
  }

  function OnSync(s: Machine, outcome: DirSync): Machine
    requires s.phase.Renamed?
  {
    match outcome
    case Synced => s.(disk := {Some(s.phase.payload)}, phase := Returned(true, s.phase.snapshot))
    case Skipped => s.(phase := Returned(true, s.phase.snapshot))
    case Failed => s.(phase := Returned(false, s.phase.snapshot))
  }

  function OnResume(s: Machine): Machine
    requires s.phase.Returned?
  {
    if s.phase.ok then
      s.(m := s.m.(lastPersistAt := Some(s.clock)), phase := Applying(Todo(s.phase.snapshot)))
    else
      s.(m := EndFlush(s.m, s.phase.snapshot, false, s.clock), phase := Idle)
  }

  function Step(env: Env, s: Machine, e: Event): Machine
    requires Enabled(env, s, e)
  {
    match e
    case Frame(sn, d, now) => OnFrame(env, s, sn, d, now)
    case ConfigFrame(sn, ratedAh) => s.(m := Configure(env.o, s.m, sn, ratedAh))
    case Reserve(sn) => s.(m := Admit(env.o, s.m, sn))
    case Begin(force, serializes) => OnBegin(env, s, force, serializes)
    case WriteFails => s.(phase := Returned(false, s.phase.snapshot))
    case Rename => OnRename(s)
    case SyncDirectory(outcome) => OnSync(s, outcome)
    case Resume => OnResume(s)
    case RaiseOne(t) =>
      s.(m := s.m.(counters := Raise(s.m.counters, t, s.phase.todo[t])), phase := Applying(s.phase.todo - {t}))
    case Release => s.(m := s.m.(freshAt := Some(s.clock), writing := false), phase := Idle)
    case Scrape(t) => s.(served := s.served + {(t, Read(s.m.counters, t))})
    case Tick(seconds) => s.(clock := s.clock + seconds)
    case Settle => s.(disk := {s.visible})
    case Die => s.(up := false)
    case PowerLoss(f) => s.(up := false, visible := f, disk := {f})
    case Restart => OnRestart(env, s)
  }

  /** The machine after the events, those that cannot happen where they stand left out. */
  function Exec(env: Env, s: Machine, es: seq<Event>): Machine {
    if es == [] then s
    else
      var before := Exec(env, s, es[..|es| - 1]);
      if Enabled(env, before, es[|es| - 1]) then Step(env, before, es[|es| - 1]) else before
  }
}
