/**
 The provider side of adopt, install and recovery as a protocol over one manifest: who may
 publish the managed daemon row, and who may switch the provider's own entry back on.

 Adopt runs, leased installs and recoveries hold the manifest lease, so there is at most one
 of them at a time.  Installs of a parsed manifest hold only the supervisor-intent lock.  An
 install keeps that lock from before its start barrier until after its publication.  Every
 durable write is one action, and the lease holder may crash between any two of them.
 */
module ProviderProtocol {

  datatype Op = Adopting | Adopted | DeAdopting
  datatype Phase = Unstarted | StopSettled | ManagedRemoved | RestoreApplied
  datatype Row = NoRow | Row(op: Op, phase: Phase)

  // The durable install history kept beside the row.
  datatype Marker = Missing | NotStarted | Started | Claimed | Settled

  datatype File = NoFile | Ours | Other

  // The manifest file, the managed daemon row, and the provider's own activation.
  datatype Disk = Disk(file: File, managed: bool, enabled: bool)

  // Who has the supervisor-intent lock; a parsed install may be past its start barrier.
  datatype Intent = Free | ByHolder | ParsedIn | ParsedPast

  datatype Stage =
    | Nobody
    // adopt: begun, marker written, row written, provider off, manifest written, provider back on, row dropped
    | CStart | CMarked | CRow | COff | CFile | CBack | CDropped
    // install: begun, probing, ready, intent locked, past the barrier, published, failed, succeeded
    | IStart | IProbe | IReady | ILocked | IPast | IPublished | IEnd | IWon
    // recovery of a never-started or rolled-back install
    | DMarked | DSeen | DClaimed | DClear | DGone
    // teardown of a managed daemon
    | DStop | DStopped | DFileGone | DRowGone
    // restore: managed side gone, late row settled, intent locked, history vouched, restored, recorded, closed
    | DRemoved | DLate | DLocked | DVouched | DRestored | DApplied | DClosed

  // `adopt`: an install inside an adopt.  `flag`: the probe started the history itself, later
  // that the install began on untouched history.  `had`: a managed row was there before.
  datatype Work = Work(stage: Stage, adopt: bool, flag: bool, had: bool)

  // Bookkeeping, all of it about the past of a run.
  datatype Log = Log(
    restored: bool,   // recovery has switched the provider on for the row that is there
    overrun: bool,    // the history moved on under the parsed install that is past its barrier
    tainted: bool,    // provider and managed row have been on together
    toggled: bool)    // somebody outside has switched the provider

  datatype State = State(row: Row, marker: Marker, disk: Disk, intent: Intent, work: Work, log: Log)

  const REST := Work(Nobody, false, false, false)

  function Init(file: File, enabled: bool): State {
    State(NoRow, Missing, Disk(file, false, enabled), Free, REST, Log(false, false, false, false))
  }

  // ---- small effects ----

  function Stand(s: State, g: Stage): State { s.(work := s.work.(stage := g)) }
  function Mark(s: State, m: Marker): State { s.(marker := m) }
  function Hold(s: State, i: Intent): State { s.(intent := i) }
  function SetFile(s: State, f: File): State { s.(disk := s.disk.(file := f)) }
  function SetPhase(s: State, p: Phase): State { s.(row := Row(DeAdopting, p)) }

  predicate Both(s: State) { s.disk.enabled && s.disk.managed }

  function Taint(s: State): State { s.(log := s.log.(tainted := s.log.tainted || Both(s))) }

  function SetManaged(s: State, on: bool): State { Taint(s.(disk := s.disk.(managed := on))) }
  function SetEnabled(s: State, on: bool): State { Taint(s.(disk := s.disk.(enabled := on))) }

  // The history moves on; a parsed install past its barrier does not notice.
  function Overrun(s: State): State {
    s.(log := s.log.(overrun := s.log.overrun || s.intent.ParsedPast?))
  }

  predicate Is(s: State, op: Op) { s.row.Row? && s.row.op == op }
  // The managed side has not been noted as gone.
  predicate Standing(s: State) { In(s, Unstarted) || In(s, StopSettled) }

  predicate In(s: State, p: Phase) { s.row.Row? && s.row.op.DeAdopting? && s.row.phase == p }

  // The start barrier of an install: a row that is being adopted needs open history, a row that
  // is being torn down refuses, and any other manifest passes.
  predicate Passes(s: State) {
    s.row.NoRow? || s.row.op.Adopted? || (s.row.op.Adopting? && (s.marker.NotStarted? || s.marker.Started?))
  }

  function Begun(s: State): State {
    if s.row.Row? && s.row.op.Adopting? then Mark(s, Started) else s
  }

  // ---- actions ----

  datatype Action =
    | BeginAdopt | InitMarker | WriteRow | Disable | CreateFile | RawRestore | DropRow | DropMarker | Promote
    | BeginInstall | Admit | SettleBack | LockIntent | Refuse | Barrier | Publish | Win
    | Undo(ok: bool) | FailUnpublished | SettleMarker
    | BeginRecovery | SeeAbsent | Claim | SeeAgain | DeleteFile | Advance
    | Stop | AdvanceStop | DeleteStopped | RemoveRow | AdvanceRemoved
    | Resume | DeleteAgain | Repair | RemoveLate | LockRestore | Vouch | Restore
    | AdvanceApplied | ResumeApplied | CloseRow
    | Crash
    | OtherFile(f: File) | Toggle(on: bool) | Uninstall
    | ParsedLock | ParsedBarrier | ParsedPublish | ParsedUndo | ParsedLeave

  datatype Kind = InAdopt | InInstall | InClaim | InRestore | Elsewhere

  function KindOf(a: Action): Kind {
    match a
    case BeginAdopt | InitMarker | WriteRow | Disable | CreateFile | RawRestore => InAdopt
    case DropRow | DropMarker | Promote => InAdopt
    case BeginInstall | Admit | SettleBack | LockIntent | Refuse | Barrier | Publish | Win => InInstall
    case Undo(_) | FailUnpublished | SettleMarker => InInstall
    case BeginRecovery | SeeAbsent | Claim | SeeAgain | DeleteFile | Advance => InClaim
    case Stop | AdvanceStop | DeleteStopped | RemoveRow | AdvanceRemoved => InClaim
    case Resume | DeleteAgain | Repair | RemoveLate | LockRestore | Vouch | Restore => InRestore
    case AdvanceApplied | ResumeApplied | CloseRow => InRestore
    case _ => Elsewhere
  }

  predicate AdoptEnabled(s: State, a: Action)
    requires KindOf(a).InAdopt?
  {
    var g := s.work.stage;
    match a
    case BeginAdopt => g.Nobody? && s.row.NoRow?
    case InitMarker => g.CStart? && (s.marker.Missing? || s.marker.NotStarted?)
    case WriteRow => g.CMarked?
    case Disable => g.CRow? && s.disk.enabled && s.marker.NotStarted?
    case CreateFile => g.COff? && s.disk.file.NoFile?
    case RawRestore => (g.COff? || g.CFile?) && !s.disk.enabled
    case DropRow => g.CBack?
    case DropMarker => g.CDropped? || g.DClosed?
    case Promote => g.IWon? && s.work.adopt
  }

  function AdoptStep(s: State, a: Action): State
    requires KindOf(a).InAdopt?
  {
    match a
    case BeginAdopt => Stand(s, CStart)
    case InitMarker => Mark(Stand(s, CMarked), NotStarted)
    case WriteRow => Overrun(Stand(s, CRow)).(row := Row(Adopting, Unstarted))
    case Disable => SetEnabled(Stand(s, COff), false)
    case CreateFile => SetFile(Stand(s, CFile), Ours)
    case RawRestore => SetEnabled(Stand(s, CBack), true)
    case DropRow => Stand(s, CDropped).(row := NoRow)
    case DropMarker => Mark(s, Missing).(work := REST)
    case Promote => s.(row := Row(Adopted, Unstarted), work := REST)
  }

  predicate InstallEnabled(s: State, a: Action)
    requires KindOf(a).InInstall?
  {
    var g := s.work.stage;
    match a
    case BeginInstall => (g.CFile? || g.Nobody?) && !s.disk.file.NoFile?
    case Admit => g.IStart? && Passes(s)
    case SettleBack => g.IProbe? && (s.work.flag ==> Is(s, Adopting) && s.marker.Started?)
    case LockIntent => g.IReady? && s.intent.Free?
    case Refuse => g.ILocked?
    case Barrier => g.ILocked? && Passes(s)
    case Publish => g.IPast?
    case Win => g.IPublished?
    case Undo(_) => g.IPublished?
    case FailUnpublished => g.IPast?
    case SettleMarker => g.IEnd? && s.work.flag && Is(s, Adopting) && (s.marker.Started? || s.marker.NotStarted?)
  }

  function InstallStep(s: State, a: Action): State
    requires KindOf(a).InInstall?
  {
    match a
    case BeginInstall => s.(work := Work(IStart, s.work.stage.CFile?, false, false))
    case Admit => Begun(s).(work := s.work.(stage := IProbe, flag := Is(s, Adopting) && s.marker.NotStarted?))
    case SettleBack => if s.work.flag then Mark(Overrun(Stand(s, IReady)), NotStarted) else Stand(s, IReady)
    case LockIntent =>
      Hold(s, ByHolder).(
        work := s.work.(stage := ILocked, flag := s.marker.NotStarted? && !s.disk.managed, had := s.disk.managed))
    case Refuse => Hold(Stand(s, IEnd), Free)
    case Barrier => Begun(Stand(s, IPast))
    case Publish => SetManaged(Stand(s, IPublished), true)
    case Win => Hold(Stand(s, IWon), Free)
    case Undo(ok) => SetManaged(Hold(s, Free), !ok || s.work.had).(work := s.work.(stage := IEnd, flag := false))
    case FailUnpublished => Hold(Stand(s, IEnd), Free)
    case SettleMarker =>
      var t := s.(work := s.work.(flag := false));
      if s.marker.Started? then Mark(Overrun(t), Settled) else t
  }

  // A recovery starts on its own, or inside an adopt whose install left no started history.
  predicate ClaimEnabled(s: State, a: Action)
    requires KindOf(a).InClaim?
  {
    var g := s.work.stage;
    match a
    case BeginRecovery =>
      s.row.Row? && (g.Nobody? || (g.IEnd? && s.work.adopt && !s.marker.Started? && !s.marker.Missing?))
    case SeeAbsent => g.DMarked? && Standing(s) && !s.disk.managed && !s.disk.file.Other?
    case Claim => g.DSeen? && !s.marker.Started?
    case SeeAgain => g.DClaimed? && !s.disk.managed && !s.disk.file.Other?
    case DeleteFile => g.DClear?
    case Advance => g.DGone? && !s.disk.managed && s.disk.file.NoFile?
    case Stop => g.DMarked? && Standing(s) && s.disk.managed && !s.marker.NotStarted?
    case AdvanceStop => g.DStop?
    case DeleteStopped => g.DStopped? && !s.disk.file.Other?
    case RemoveRow => g.DFileGone? && s.intent.Free?
    case AdvanceRemoved => g.DRowGone?
  }

  function ClaimStep(s: State, a: Action): State
    requires KindOf(a).InClaim?
  {
    match a
    case BeginRecovery =>
      s.(row := Row(DeAdopting, if s.row.Row? then s.row.phase else Unstarted),
         work := Work(DMarked, false, false, false))
    case SeeAbsent => Stand(s, DSeen)
    case Claim => Mark(Stand(s, DClaimed), if s.marker.Settled? then Settled else Claimed)
    case SeeAgain => Stand(s, DClear)
    case DeleteFile => SetFile(Stand(s, DGone), NoFile)
    case Advance => SetPhase(Stand(s, DRemoved), ManagedRemoved)
    case Stop => Mark(Overrun(Stand(s, DStop)), Settled)
    case AdvanceStop => SetPhase(Stand(s, DStopped), StopSettled)
    case DeleteStopped => SetFile(Stand(s, DFileGone), NoFile)
    case RemoveRow => SetManaged(Stand(s, DRowGone), false)
    case AdvanceRemoved => SetPhase(Stand(s, DRemoved), ManagedRemoved)
  }

  predicate RestoreEnabled(s: State, a: Action)
    requires KindOf(a).InRestore?
  {
    var g := s.work.stage;
    match a
    case Resume => g.DMarked? && In(s, ManagedRemoved)
    case DeleteAgain => g.DRemoved? && s.disk.file.Ours?
    case Repair => g.DRemoved? && s.disk.managed && !s.marker.NotStarted?
    case RemoveLate => g.DLate? && s.intent.Free?
    case LockRestore => g.DRemoved? && s.intent.Free?
    case Vouch => g.DLocked? && !s.marker.Started?
    case Restore => g.DVouched? && In(s, ManagedRemoved) && !s.disk.managed && s.disk.file.NoFile?
    case AdvanceApplied => g.DRestored?
    case ResumeApplied => g.DMarked? && In(s, RestoreApplied)
    case CloseRow => g.DApplied?
  }

  function RestoreStep(s: State, a: Action): State
    requires KindOf(a).InRestore?
  {
    match a
    case Resume => Stand(s, DRemoved)
    case DeleteAgain => SetFile(s, NoFile)
    case Repair => Mark(Overrun(Stand(s, DLate)), Settled)
    case RemoveLate => SetManaged(Stand(s, DRemoved), false)
    case LockRestore => Hold(Stand(s, DLocked), ByHolder)
    case Vouch => Mark(Stand(s, DVouched), if s.marker.Settled? || s.marker.Missing? then Settled else Claimed)
    case Restore =>
      var t := SetEnabled(Hold(Stand(s, DRestored), Free), true);
      t.(log := t.log.(restored := true))
    case AdvanceApplied => SetPhase(Stand(s, DApplied), RestoreApplied)
    case ResumeApplied => Stand(s, DApplied)
    case CloseRow => Stand(s, DClosed).(row := NoRow, log := s.log.(restored := false))
  }

  predicate OtherEnabled(s: State, a: Action)
    requires KindOf(a).Elsewhere?
  {
    match a
    case Crash => !s.work.stage.Nobody?
    case OtherFile(_) => s.work.stage.Nobody?
    case Toggle(_) => true
    case Uninstall => s.intent.Free?
    case ParsedLock => s.intent.Free?
    case ParsedBarrier => s.intent.ParsedIn? && Passes(s)
    case ParsedPublish => s.intent.ParsedPast?
    case ParsedUndo => s.intent.ParsedPast?
    case ParsedLeave => s.intent.ParsedIn? || s.intent.ParsedPast?
  }

  function OtherStep(s: State, a: Action): State
    requires KindOf(a).Elsewhere?
  {
    match a
    case Crash => s.(work := REST, intent := if s.intent.ByHolder? then Free else s.intent)
    case OtherFile(f) => SetFile(s, f)
    case Toggle(on) => SetEnabled(s.(log := s.log.(toggled := true)), on)
    case Uninstall => SetManaged(s, false)
    case ParsedLock => Hold(s, ParsedIn)
    case ParsedBarrier => Hold(Begun(s), ParsedPast)
    case ParsedPublish => SetManaged(s, true)
    case ParsedUndo => SetManaged(s, false)
    case ParsedLeave => Hold(s, Free).(log := s.log.(overrun := false))
  }

  predicate Enabled(s: State, a: Action) {
    match KindOf(a)
    case InAdopt => AdoptEnabled(s, a)
    case InInstall => InstallEnabled(s, a)
    case InClaim => ClaimEnabled(s, a)
    case InRestore => RestoreEnabled(s, a)
    case Elsewhere => OtherEnabled(s, a)
  }

  function Step(s: State, a: Action): State {
    match KindOf(a)
    case InAdopt => AdoptStep(s, a)
    case InInstall => InstallStep(s, a)
    case InClaim => ClaimStep(s, a)
    case InRestore => RestoreStep(s, a)
    case Elsewhere => OtherStep(s, a)
  }

  // ---- the invariant ----

  predicate HolderLocks(g: Stage) {
    match g
    case ILocked | IPast | IPublished | DLocked | DVouched => true
    case _ => false
  }

  predicate Installing(g: Stage) {
    match g
    case IStart | IProbe | IReady | ILocked | IPast | IPublished | IEnd | IWon => true
    case _ => false
  }

  // The row is one an install may be under way for.
  predicate Open(s: State) {
    s.row.NoRow? || s.row.op.Adopted? || (s.row.op.Adopting? && s.marker.Started?)
  }

  // Where the row stands, read off the lease holder's position.
  predicate RowFor(s: State, g: Stage) {
    match g
    case Nobody | IStart | IProbe | IReady | ILocked | IEnd => true
    case CStart | CMarked | CDropped | DClosed => s.row.NoRow?
    case CRow | COff | CFile | CBack => Is(s, Adopting)
    case IPast | IPublished | IWon => Open(s)
    case DMarked => Is(s, DeAdopting)
    case DSeen | DClaimed | DClear | DGone | DStop => Standing(s)
    case DStopped | DFileGone | DRowGone => In(s, StopSettled)
    case DRemoved | DLate | DLocked | DVouched | DRestored => In(s, ManagedRemoved)
    case DApplied => In(s, RestoreApplied)
  }

  predicate RowOk(s: State) {
    RowFor(s, s.work.stage) && (s.work.adopt ==> Installing(s.work.stage) && Is(s, Adopting))
  }

  predicate LockOk(s: State) {
    s.intent.ByHolder? <==> HolderLocks(s.work.stage)
  }

  // History: an adopted row was started, and so was the row a parsed install is past the
  // barrier of, unless the history moved on under that install.
  predicate HistoryOk(s: State) {
    && (Is(s, Adopted) ==> s.marker.Started?)
    && (s.intent.ParsedPast? && s.row.Row? && !s.log.overrun ==> s.marker.Started?)
    && (s.log.overrun ==> s.intent.ParsedPast?)
  }

  // After the guarded restore the managed side stays gone until the row is closed.
  predicate RestoredOk(s: State) {
    s.log.restored ==>
      && (In(s, ManagedRemoved) || In(s, RestoreApplied)) && !s.disk.managed && !s.intent.ParsedPast?
      && (!s.log.toggled ==> s.disk.enabled)
  }

  predicate TaintOk(s: State) { (Both(s) ==> s.log.tainted) && (s.work.stage.IPublished? ==> s.disk.managed) }

  // While nobody outside switches it, an adopted provider is off.
  predicate OffOk(s: State) {
    !s.log.toggled ==>
      (s.work.stage.COff? || s.work.stage.CFile? || s.work.adopt || Is(s, Adopted) ==> !s.disk.enabled)
  }

  predicate Placed(s: State) { RowOk(s) && LockOk(s) && HistoryOk(s) }
  predicate Logged(s: State) { RestoredOk(s) && TaintOk(s) && OffOk(s) }
  predicate Inv(s: State) { Placed(s) && Logged(s) }

  lemma AdoptPlaced(s: State, a: Action)
    requires Inv(s) && KindOf(a).InAdopt? && AdoptEnabled(s, a)
    ensures Placed(AdoptStep(s, a))
  {
  }

  lemma AdoptLogged(s: State, a: Action)
    requires Inv(s) && KindOf(a).InAdopt? && AdoptEnabled(s, a)
    ensures Logged(AdoptStep(s, a))
  {
  }

  lemma InstallPlaced(s: State, a: Action)
    requires Inv(s) && KindOf(a).InInstall? && InstallEnabled(s, a)
    ensures Placed(InstallStep(s, a))
  {
  }

  lemma InstallLogged(s: State, a: Action)
    requires Inv(s) && KindOf(a).InInstall? && InstallEnabled(s, a)
    ensures Logged(InstallStep(s, a))
  {
  }

  lemma ClaimRow(s: State, a: Action)
    requires Inv(s) && KindOf(a).InClaim? && ClaimEnabled(s, a)
    ensures RowOk(ClaimStep(s, a))
  {
  }

  lemma ClaimPlaced(s: State, a: Action)
    requires Inv(s) && KindOf(a).InClaim? && ClaimEnabled(s, a)
    ensures Placed(ClaimStep(s, a))
  {
    ClaimRow(s, a);
  }

  lemma ClaimLogged(s: State, a: Action)
    requires Inv(s) && KindOf(a).InClaim? && ClaimEnabled(s, a)
    ensures Logged(ClaimStep(s, a))
  {
  }

  lemma RestoreRow(s: State, a: Action)
    requires Inv(s) && KindOf(a).InRestore? && RestoreEnabled(s, a)
    ensures RowOk(RestoreStep(s, a))
  {
  }

  lemma RestorePlaced(s: State, a: Action)
    requires Inv(s) && KindOf(a).InRestore? && RestoreEnabled(s, a)
    ensures Placed(RestoreStep(s, a))
  {
    RestoreRow(s, a);
  }

  lemma RestoreLogged(s: State, a: Action)
    requires Inv(s) && KindOf(a).InRestore? && RestoreEnabled(s, a)
    ensures Logged(RestoreStep(s, a))
  {
  }

  lemma OtherPlaced(s: State, a: Action)
    requires Inv(s) && Enabled(s, a) && KindOf(a).Elsewhere?
    ensures Placed(OtherStep(s, a))
  {
  }

  lemma OtherLogged(s: State, a: Action)
    requires Inv(s) && Enabled(s, a) && KindOf(a).Elsewhere?
    ensures Logged(OtherStep(s, a))
  {
  }

  lemma AdoptKeepsInv(s: State, a: Action)
    requires Inv(s) && KindOf(a).InAdopt? && AdoptEnabled(s, a)
    ensures Inv(AdoptStep(s, a))
  {
    AdoptPlaced(s, a);
    AdoptLogged(s, a);
  }

  lemma InstallKeepsInv(s: State, a: Action)
    requires Inv(s) && KindOf(a).InInstall? && InstallEnabled(s, a)
    ensures Inv(InstallStep(s, a))
  {
    InstallPlaced(s, a);
    InstallLogged(s, a);
  }

  lemma ClaimKeepsInv(s: State, a: Action)
    requires Inv(s) && KindOf(a).InClaim? && ClaimEnabled(s, a)
    ensures Inv(ClaimStep(s, a))
  {
    ClaimPlaced(s, a);
    ClaimLogged(s, a);
  }

  lemma RestoreKeepsInv(s: State, a: Action)
    requires Inv(s) && KindOf(a).InRestore? && RestoreEnabled(s, a)
    ensures Inv(RestoreStep(s, a))
  {
    RestorePlaced(s, a);
    RestoreLogged(s, a);
  }

  lemma OtherKeepsInv(s: State, a: Action)
    requires Inv(s) && Enabled(s, a) && KindOf(a).Elsewhere?
    ensures Inv(OtherStep(s, a))
  {
    OtherPlaced(s, a);
    OtherLogged(s, a);
  }

  lemma StepKeepsInv(s: State, a: Action)
    requires Inv(s) && Enabled(s, a)
    ensures Inv(Step(s, a))
  {
    match KindOf(a)
    case InAdopt => AdoptKeepsInv(s, a);
    case InInstall => InstallKeepsInv(s, a);
    case InClaim => ClaimKeepsInv(s, a);
    case InRestore => RestoreKeepsInv(s, a);
    case Elsewhere => OtherKeepsInv(s, a);
  }

  // ---- runs ----

  datatype Trace = Start(file: File, enabled: bool) | Then(prev: Trace, a: Action)

  ghost function End(tr: Trace): State {
    match tr
    case Start(file, enabled) => Init(file, enabled)
    case Then(prev, a) => Step(End(prev), a)
  }

  // Every action was enabled when it was taken.
  ghost predicate IsRun(tr: Trace) {
    tr.Then? ==> IsRun(tr.prev) && Enabled(End(tr.prev), tr.a)
  }

  lemma {:induction false} RunKeepsInv(tr: Trace)
    requires IsRun(tr)
    ensures Inv(End(tr))
  {
    if tr.Then? {
      RunKeepsInv(tr.prev);
      StepKeepsInv(End(tr.prev), tr.a);
    }
  }

  // ---- install and recovery exclude each other ----

  predicate Publishes(a: Action) { a.Publish? || a.ParsedPublish? }

  /** Once recovery has claimed the history, or it is settled, no leased install publishes a managed
      row for that row, and a parsed one only if the history moved on while that very install was
      past its barrier. */
  lemma ClaimExcludesInstall(tr: Trace, a: Action)
    requires IsRun(tr) && Enabled(End(tr), a) && Publishes(a)
    requires var s := End(tr); s.row.Row? && (s.marker.Claimed? || s.marker.Settled?)
    ensures a.ParsedPublish? && End(tr).log.overrun
  {
    RunKeepsInv(tr);
  }

  /** From the guarded restore until the row is closed nobody publishes at all, no managed row is
      there, and the provider is on unless somebody outside switched it. */
  lemma RestoredStaysAlone(tr: Trace, a: Action)
    requires IsRun(tr) && End(tr).log.restored && Enabled(End(tr), a)
    ensures !Publishes(a) && !End(tr).disk.managed && (!End(tr).log.toggled ==> End(tr).disk.enabled)
  {
    RunKeepsInv(tr);
  }

  // ---- the managed row, read off the actions ----

  // A managed row has been published and not been taken away since.  A leased install that takes
  // its publication back leaves what was there when it took the intent lock.
  predicate Published(tr: Trace) {
    match tr
    case Start(_, _) => false
    case Then(prev, a) =>
      if Publishes(a) then true
      else if a.Uninstall? || a.ParsedUndo? || a.RemoveRow? || a.RemoveLate? then false
      else if a == Undo(true) then Before(prev)
      else Published(prev)
  }

  // A managed row was there when a leased install last took the intent lock.
  predicate Before(tr: Trace) {
    match tr
    case Start(_, _) => false
    case Then(prev, a) => if a.LockIntent? then Published(prev) else Before(prev)
  }

  predicate Publishing(g: Stage) { g.ILocked? || g.IPast? || g.IPublished? }

  ghost predicate RowTold(tr: Trace, s: State) {
    s.disk.managed == Published(tr) && (Publishing(s.work.stage) ==> s.work.had == Before(tr))
  }

  lemma AdoptRowTold(tr: Trace, s: State, a: Action)
    requires Inv(s) && KindOf(a).InAdopt? && AdoptEnabled(s, a) && RowTold(tr, s)
    ensures RowTold(Then(tr, a), AdoptStep(s, a))
  {
  }

  lemma InstallRowTold(tr: Trace, s: State, a: Action)
    requires Inv(s) && KindOf(a).InInstall? && InstallEnabled(s, a) && RowTold(tr, s)
    ensures RowTold(Then(tr, a), InstallStep(s, a))
  {
  }

  lemma ClaimRowTold(tr: Trace, s: State, a: Action)
    requires Inv(s) && KindOf(a).InClaim? && ClaimEnabled(s, a) && RowTold(tr, s)
    ensures RowTold(Then(tr, a), ClaimStep(s, a))
  {
  }

  lemma RestoreRowTold(tr: Trace, s: State, a: Action)
    requires Inv(s) && KindOf(a).InRestore? && RestoreEnabled(s, a) && RowTold(tr, s)
    ensures RowTold(Then(tr, a), RestoreStep(s, a))
  {
  }

  lemma OtherRowTold(tr: Trace, s: State, a: Action)
    requires Inv(s) && KindOf(a).Elsewhere? && OtherEnabled(s, a) && RowTold(tr, s)
    ensures RowTold(Then(tr, a), OtherStep(s, a))
  {
  }

  lemma {:induction false} RunRowTold(tr: Trace)
    requires IsRun(tr)
    ensures RowTold(tr, End(tr))
  {
    if tr.Then? {
      RunKeepsInv(tr.prev);
      RunRowTold(tr.prev);
      var s := End(tr.prev);
      match KindOf(tr.a)
      case InAdopt => AdoptRowTold(tr.prev, s, tr.a);
      case InInstall => InstallRowTold(tr.prev, s, tr.a);
      case InClaim => ClaimRowTold(tr.prev, s, tr.a);
      case InRestore => RestoreRowTold(tr.prev, s, tr.a);
      case Elsewhere => OtherRowTold(tr.prev, s, tr.a);
    }
  }

  /** In every run the managed row is there exactly when the actions say so: in particular an
      install that failed after publishing and undid it leaves the row as it was when it took the
      intent lock, and one that could not undo it leaves the row published. */
  lemma ManagedRowExactly(tr: Trace)
    requires IsRun(tr)
    ensures End(tr).disk.managed <==> Published(tr)
    ensures Enabled(End(tr), Undo(true)) ==> (Step(End(tr), Undo(true)).disk.managed <==> Before(tr))
    ensures Enabled(End(tr), Undo(false)) ==> Step(End(tr), Undo(false)).disk.managed
  {
    RunRowTold(tr);
  }

  // ---- provider and managed row on together ----

  // One step: a publication beside a provider that is on, or a switch beside a managed row.
  lemma BothStep(s: State, a: Action)
    requires Inv(s) && Enabled(s, a) && !Both(s)
    ensures Both(Step(s, a)) <==>
              (s.disk.enabled && Publishes(a)) || (s.disk.managed && (a.RawRestore? || a == Toggle(true)))
  {
    match KindOf(a)
    case InAdopt => AdoptBoth(s, a);
    case InInstall => InstallBoth(s, a);
    case InClaim => ClaimBoth(s, a);
    case InRestore => RestoreBoth(s, a);
    case Elsewhere => OtherBoth(s, a);
  }

  lemma AdoptBoth(s: State, a: Action)
    requires KindOf(a).InAdopt? && !Both(s)
    ensures Both(AdoptStep(s, a)) <==> s.disk.managed && a.RawRestore?
  {
  }

  lemma InstallBoth(s: State, a: Action)
    requires Inv(s) && KindOf(a).InInstall? && InstallEnabled(s, a) && !Both(s)
    ensures Both(InstallStep(s, a)) <==> s.disk.enabled && a.Publish?
  {
  }

  lemma ClaimBoth(s: State, a: Action)
    requires KindOf(a).InClaim? && !Both(s)
    ensures !Both(ClaimStep(s, a))
  {
  }

  lemma RestoreBoth(s: State, a: Action)
    requires KindOf(a).InRestore? && RestoreEnabled(s, a) && !Both(s)
    ensures !Both(RestoreStep(s, a))
  {
  }

  lemma OtherBoth(s: State, a: Action)
    requires KindOf(a).Elsewhere? && !Both(s)
    ensures Both(OtherStep(s, a)) <==> (s.disk.enabled && a.ParsedPublish?) || (s.disk.managed && a == Toggle(true))
  {
  }

  // Read off the actions alone: the provider was on at first, and no adopt has disabled it since,
  // or it has been restored after that.
  predicate On(tr: Trace) {
    match tr
    case Start(_, enabled) => enabled
    case Then(prev, a) => if a.Disable? then false else a.RawRestore? || a.Restore? || On(prev)
  }

  // Since the last disable a parsed install has published, and neither it nor an uninstall has
  // taken that back.
  predicate Slipped(tr: Trace) {
    match tr
    case Start(_, _) => false
    case Then(prev, a) => a.ParsedPublish? || (Slipped(prev) && !a.ParsedUndo? && !a.Uninstall? && !a.Disable?)
  }

  // Whoever published, the provider was on; or the adopt's own restore came after a parsed
  // install had slipped in.
  predicate Collides(tr: Trace, a: Action) {
    (Publishes(a) && On(tr)) || (a.RawRestore? && Slipped(tr))
  }

  predicate Collided(tr: Trace) {
    tr.Then? && (Collided(tr.prev) || Collides(tr.prev, tr.a))
  }

  predicate Disabled(g: Stage) { g.COff? || g.CFile? }

  // What the actions say about the disk while nobody outside switches the provider.
  ghost predicate Told(tr: Trace, s: State) {
    !s.log.toggled ==>
      && s.disk.enabled == On(tr)
      && (Disabled(s.work.stage) && !s.log.tainted ==> (s.disk.managed <==> Slipped(tr)))
  }

  lemma AdoptTold(tr: Trace, s: State, a: Action)
    requires Inv(s) && KindOf(a).InAdopt? && AdoptEnabled(s, a) && Told(tr, s)
    ensures Told(Then(tr, a), AdoptStep(s, a))
  {
  }

  lemma InstallTold(tr: Trace, s: State, a: Action)
    requires Inv(s) && KindOf(a).InInstall? && InstallEnabled(s, a) && Told(tr, s)
    ensures Told(Then(tr, a), InstallStep(s, a))
  {
  }

  lemma ClaimTold(tr: Trace, s: State, a: Action)
    requires Inv(s) && KindOf(a).InClaim? && ClaimEnabled(s, a) && Told(tr, s)
    ensures Told(Then(tr, a), ClaimStep(s, a))
  {
  }

  lemma RestoreTold(tr: Trace, s: State, a: Action)
    requires Inv(s) && KindOf(a).InRestore? && RestoreEnabled(s, a) && Told(tr, s)
    ensures Told(Then(tr, a), RestoreStep(s, a))
  {
  }

  lemma OtherTold(tr: Trace, s: State, a: Action)
    requires Inv(s) && KindOf(a).Elsewhere? && OtherEnabled(s, a) && Told(tr, s)
    ensures Told(Then(tr, a), OtherStep(s, a))
  {
  }

  lemma StepTold(tr: Trace, s: State, a: Action)
    requires Inv(s) && Enabled(s, a) && Told(tr, s)
    ensures Told(Then(tr, a), Step(s, a))
  {
    match KindOf(a)
    case InAdopt => AdoptTold(tr, s, a);
    case InInstall => InstallTold(tr, s, a);
    case InClaim => ClaimTold(tr, s, a);
    case InRestore => RestoreTold(tr, s, a);
    case Elsewhere => OtherTold(tr, s, a);
  }

  lemma {:induction false} RunTold(tr: Trace)
    requires IsRun(tr)
    ensures Told(tr, End(tr))
  {
    if tr.Then? {
      RunKeepsInv(tr.prev);
      RunTold(tr.prev);
      StepTold(tr.prev, End(tr.prev), tr.a);
    }
  }

  /** The adopt's own restore, which neither takes the intent lock nor looks for a managed row,
      meets one exactly when a parsed install has slipped in since the provider was disabled. */
  lemma RawRestoreExactly(tr: Trace)
    requires IsRun(tr) && Enabled(End(tr), RawRestore) && !End(tr).log.toggled && !End(tr).log.tainted
    ensures End(tr).disk.managed <==> Slipped(tr)
  {
    RunTold(tr);
  }

  /** A leased install that publishes beside a provider that is on does so for a manifest without a
      row, or for one whose adopt died before it switched the provider off or after it switched it
      back on; never for its own adopt, an adopted row or one that is being torn down. */
  lemma LeasedCollisionIsStray(tr: Trace)
    requires IsRun(tr) && Enabled(End(tr), Publish) && On(tr) && !End(tr).log.toggled
    ensures var s := End(tr); s.row.NoRow? || (Is(s, Adopting) && !s.work.adopt)
  {
    RunKeepsInv(tr);
    RunTold(tr);
  }

  /** While nobody outside switches it, provider and managed row have been on together if and only
      if one of the three collisions took place. */
  lemma {:induction false} BothExactly(tr: Trace)
    requires IsRun(tr) && !End(tr).log.toggled
    ensures End(tr).log.tainted <==> Collided(tr)
  {
    if tr.Then? {
      var s, a := End(tr.prev), tr.a;
      RunKeepsInv(tr.prev);
      LogGrows(s, a);
      BothExactly(tr.prev);
      RunTold(tr.prev);
      if !s.log.tainted { FirstCollision(tr.prev, s, a); }
    }
  }

  lemma FirstCollision(tr: Trace, s: State, a: Action)
    requires Inv(s) && Enabled(s, a) && Told(tr, s) && !s.log.tainted && !Step(s, a).log.toggled
    ensures Both(Step(s, a)) <==> Collides(tr, a)
  {
    LogGrows(s, a);
    BothStep(s, a);
  }

  // What a step does to the two memories used above.
  ghost predicate Remembers(s: State, t: State) {
    (s.log.toggled ==> t.log.toggled) && (t.log.tainted <==> s.log.tainted || Both(t))
  }

  lemma AdoptRemembers(s: State, a: Action)
    requires Inv(s) && KindOf(a).InAdopt?
    ensures Remembers(s, AdoptStep(s, a))
  {
  }

  lemma InstallRemembers(s: State, a: Action)
    requires Inv(s) && KindOf(a).InInstall?
    ensures Remembers(s, InstallStep(s, a))
  {
  }

  lemma ClaimRemembers(s: State, a: Action)
    requires Inv(s) && KindOf(a).InClaim?
    ensures Remembers(s, ClaimStep(s, a))
  {
  }

  lemma RestoreRemembers(s: State, a: Action)
    requires Inv(s) && KindOf(a).InRestore?
    ensures Remembers(s, RestoreStep(s, a))
  {
  }

  lemma OtherRemembers(s: State, a: Action)
    requires Inv(s) && KindOf(a).Elsewhere?
    ensures Remembers(s, OtherStep(s, a)) && (a.Toggle? ==> OtherStep(s, a).log.toggled)
  {
  }

  lemma LogGrows(s: State, a: Action)
    requires Inv(s)
    ensures Remembers(s, Step(s, a)) && (a.Toggle? ==> Step(s, a).log.toggled)
  {
    match KindOf(a)
    case InAdopt => AdoptRemembers(s, a);
    case InInstall => InstallRemembers(s, a);
    case InClaim => ClaimRemembers(s, a);
    case InRestore => RestoreRemembers(s, a);
    case Elsewhere => OtherRemembers(s, a);
  }

  // ---- three witness runs ----

  lemma ActAdopt(tr: Trace, a: Action) returns (more: Trace)
    requires IsRun(tr) && KindOf(a).InAdopt? && AdoptEnabled(End(tr), a)
    ensures IsRun(more) && End(more) == AdoptStep(End(tr), a) && more == Then(tr, a)
  {
    more := Then(tr, a);
  }

  lemma ActInstall(tr: Trace, a: Action) returns (more: Trace)
    requires IsRun(tr) && KindOf(a).InInstall? && InstallEnabled(End(tr), a)
    ensures IsRun(more) && End(more) == InstallStep(End(tr), a) && more == Then(tr, a)
  {
    more := Then(tr, a);
  }

  lemma ActClaim(tr: Trace, a: Action) returns (more: Trace)
    requires IsRun(tr) && KindOf(a).InClaim? && ClaimEnabled(End(tr), a)
    ensures IsRun(more) && End(more) == ClaimStep(End(tr), a) && more == Then(tr, a)
  {
    more := Then(tr, a);
  }

  lemma ActOther(tr: Trace, a: Action) returns (more: Trace)
    requires IsRun(tr) && KindOf(a).Elsewhere? && OtherEnabled(End(tr), a)
    ensures IsRun(more) && End(more) == OtherStep(End(tr), a) && more == Then(tr, a)
  {
    more := Then(tr, a);
  }

  lemma PlayRow() returns (tr: Trace)
    ensures IsRun(tr)
    ensures End(tr) == State(Row(Adopting, Unstarted), NotStarted, Disk(NoFile, false, true), Free,
                             Work(CRow, false, false, false),
                             Log(false, false, false, false))
  {
    tr := ActAdopt(Start(NoFile, true), BeginAdopt);
    tr := ActAdopt(tr, InitMarker);
    tr := ActAdopt(tr, WriteRow);
  }

  // A parsed install passes its barrier on the row after the adopt has disabled the provider.
  lemma PlaySlipping() returns (tr: Trace)
    ensures IsRun(tr)
    ensures End(tr) == State(Row(Adopting, Unstarted), Started, Disk(NoFile, false, false), ParsedPast,
                             Work(COff, false, false, false), Log(false, false, false, false))
  {
    tr := PlayOff();
    tr := ActOther(tr, ParsedLock);
    tr := ActOther(tr, ParsedBarrier);
  }

  lemma PlayOff() returns (tr: Trace)
    ensures IsRun(tr)
    ensures End(tr) == State(Row(Adopting, Unstarted), NotStarted, Disk(NoFile, false, false), Free,
                             Work(COff, false, false, false), Log(false, false, false, false))
  {
    tr := PlayRow();
    tr := ActAdopt(tr, Disable);
  }

  /** The adopt restores the provider beside the managed row a parsed install has just published,
      with no outside switch and no history moved under anybody. */
  lemma RawRestoreMeetsManagedRow() returns (tr: Trace)
    ensures IsRun(tr) && tr.Then? && tr.a.RawRestore? && Both(End(tr))
    ensures !End(tr).log.toggled && !End(tr).log.overrun
  {
    tr := PlaySlipping();
    tr := ActOther(tr, ParsedPublish);
    tr := ActAdopt(tr, RawRestore);
  }

  lemma PlayDead() returns (tr: Trace)
    ensures IsRun(tr)
    ensures End(tr) == State(Row(Adopting, Unstarted), NotStarted, Disk(NoFile, false, true), Free,
                             REST, Log(false, false, false, false))
  {
    tr := PlayRow();
    tr := ActOther(tr, Crash);
  }

  // An adopt writes its row and dies with the provider still on; somebody creates the manifest.
  lemma PlayAbandoned() returns (tr: Trace)
    ensures IsRun(tr)
    ensures End(tr) == State(Row(Adopting, Unstarted), NotStarted, Disk(Ours, false, true), Free,
                             REST, Log(false, false, false, false))
  {
    tr := PlayDead();
    tr := ActOther(tr, OtherFile(Ours));
  }

  // An install of it is probed.
  lemma PlayProbing() returns (tr: Trace)
    ensures IsRun(tr)
    ensures End(tr) == State(Row(Adopting, Unstarted), Started, Disk(Ours, false, true), Free,
                             Work(IProbe, false, true, false),
                             Log(false, false, false, false))
  {
    tr := PlayAbandoned();
    tr := ActInstall(tr, BeginInstall);
    tr := ActInstall(tr, Admit);
  }

  /** A stray installation: the provider stays on beside the managed row it published. */
  lemma AbandonedAdoptAdmitsInstall() returns (tr: Trace)
    ensures IsRun(tr) && Both(End(tr)) && !End(tr).log.toggled && End(tr).row.Row?
  {
    tr := PlayProbing();
    tr := ActInstall(tr, SettleBack);
    tr := ActInstall(tr, LockIntent);
    tr := ActInstall(tr, Barrier);
    tr := ActInstall(tr, Publish);
  }

  // A parsed install takes the intent lock, passes its barrier, and the probe then puts the history back.
  lemma PlayParsed() returns (tr: Trace)
    ensures IsRun(tr)
    ensures End(tr) == State(Row(Adopting, Unstarted), Started, Disk(Ours, false, true), ParsedIn,
                             Work(IProbe, false, true, false),
                             Log(false, false, false, false))
  {
    tr := PlayProbing();
    tr := ActOther(tr, ParsedLock);
  }

  lemma PlayPast() returns (tr: Trace)
    ensures IsRun(tr)
    ensures End(tr) == State(Row(Adopting, Unstarted), Started, Disk(Ours, false, true), ParsedPast,
                             Work(IProbe, false, true, false),
                             Log(false, false, false, false))
  {
    tr := PlayParsed();
    tr := ActOther(tr, ParsedBarrier);
  }

  lemma PlayOverrun() returns (tr: Trace)
    ensures IsRun(tr)
    ensures End(tr) == State(Row(Adopting, Unstarted), NotStarted, Disk(Ours, false, true), ParsedPast,
                             Work(IReady, false, true, false),
                             Log(false, true, false, false))
  {
    tr := PlayPast();
    tr := ActInstall(tr, SettleBack);
  }

  // The prober dies, and a recovery begins.
  lemma PlayOverrunDead() returns (tr: Trace)
    ensures IsRun(tr)
    ensures End(tr) == State(Row(DeAdopting, Unstarted), NotStarted, Disk(Ours, false, true), ParsedPast,
                             Work(DMarked, false, false, false), Log(false, true, false, false))
  {
    tr := PlayOverrun();
    tr := ActOther(tr, Crash);
    tr := ActClaim(tr, BeginRecovery);
  }

  lemma PlayOverrunSeen() returns (tr: Trace)
    ensures IsRun(tr)
    ensures End(tr) == State(Row(DeAdopting, Unstarted), NotStarted, Disk(Ours, false, true), ParsedPast,
                             Work(DSeen, false, false, false), Log(false, true, false, false))
  {
    tr := PlayOverrunDead();
    tr := ActClaim(tr, SeeAbsent);
  }

  /** A parsed install that passed its barrier during another install's probe publishes after
      recovery has claimed the history. */
  lemma ParsedInstallOutrunsClaim() returns (tr: Trace)
    ensures IsRun(tr) && End(tr).row.Row? && End(tr).marker.Claimed? && Enabled(End(tr), ParsedPublish)
  {
    tr := PlayOverrunSeen();
    tr := ActClaim(tr, Claim);
  }
}
