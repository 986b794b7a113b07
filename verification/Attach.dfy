/**
 Attach and rollback receipts of one client key, as a concurrent protocol.

 Any number of attach runs, rollback runs and guarded migrations compete for the key, on
 behalf of any number of daemons of one server.  They share the server's lease, the client's
 config lock and the config; each daemon has its own current receipt and snapshot files, and
 a run looks only at its own daemon's receipt, while a migration looks at all of them.
 Outside writers edit the config whenever its lock is free.  Every durable write and every
 lock hand-over is one action, it may fail before or after its effect, and a run may crash
 between any two of them.  Contents stand for their hashes.
 */
module Attach {
  import opened Wrappers

  type Agent = nat
  type Daemon = nat
  type Id = nat

  datatype Entry = Missing | Direct(value: nat) | Http(endpoint: nat)

  // A whole client config: the selected entry and everything else.
  datatype Content = Content(entry: Entry, rest: nat)

  // A snapshot file of daemon d: its shared base leaf, or one private to an operation.
  datatype Leaf = Base(d: Daemon) | Op(d: Daemon, id: Id)

  datatype Phase = Prepared | Committed | RollbackPending | RolledBack | RecoveryRequired

  // `owner` is the run that wrote the receipt.
  datatype Receipt = Receipt(id: Id, owner: Agent, phase: Phase, leaf: Leaf,
                             before: Content, after: Option<Content>, endpoint: nat)

  datatype Stage =
    | Idle
    | AStart          // attach: lease held, receipt not read
    | AArchive        // prior rolled-back receipt to be archived
    | AReady          // admitted, config lock not held
    | ALocked         // config lock held, preimage checked
    | ASnapped        // snapshot written
    | APrepared       // prepared receipt written
    | AWritten        // config written
    | APosted         // config lock released
    | AVerified       // postimage verified
    | ASettled        // lease released, receipt still prepared
    | ACommitted      // committed receipt written, not yet read back
    | AVetoedSnap     // vetoed before the receipt: only a snapshot to remove
    | AVetoed         // vetoed after the receipt
    | AVetoedLost     // vetoed because the receipt could not be written
    | ACleanReceipt   // lease released, own receipt out, preimage to be compared
    | ACleanRemove    // preimage still there, own receipt to be removed
    | ALostReceipt    // lease released, no own receipt out, preimage to be compared
    | ALostRemove     // preimage still there, whatever receipt there is to be removed
    | ACleanSnap      // lease released, receipt removed, snapshot to be removed
    | AOnlySnap       // lease released, no receipt was attempted, snapshot to be removed
    | RStart          // rollback: lease held
    | RChecked        // committed receipt and postimage checked
    | RPending        // pending receipt written
    | RRestored       // compare-and-swap restore done
    | RVerified       // restored entry verified
    | RSettled        // lease released, receipt still pending
    | RFinished       // rolled-back receipt written, not yet read back
    | MStart          // guarded migration: lease held
    | MGuarded        // no competing receipt

  // The run's own receipt also names its daemon.
  datatype Pc = Pc(stage: Stage, rec: Receipt, seen: Content)

  datatype Locks = Locks(lease: Option<Agent>, config: Option<Agent>)

  datatype Files = Files(snaps: map<Leaf, Content>, history: map<Id, Receipt>)

  datatype State = State(
    locks: Locks,
    config: Content,
    slots: map<Daemon, Option<Receipt>>,   // each daemon's current receipt
    files: Files,
    pcs: map<Agent, Pc>,
    next: Id)

  const NOTHING := Content(Missing, 0)
  const REST := Pc(Idle, Receipt(0, 0, Prepared, Base(0), NOTHING, None, 0), NOTHING)

  function Init(config: Content): State {
    State(Locks(None, None), config, map[], Files(map[], map[]), map[], 0)
  }

  function At(s: State, p: Agent): Pc {
    if p in s.pcs then s.pcs[p] else REST
  }

  function SlotAt(s: State, d: Daemon): Option<Receipt> {
    if d in s.slots then s.slots[d] else None
  }

  // The daemon a run works for, and that daemon's receipt.
  function Of(s: State, p: Agent): Daemon { At(s, p).rec.leaf.d }
  function Mine(s: State, p: Agent): Option<Receipt> { SlotAt(s, Of(s, p)) }

  // ---- classes of stages ----

  // Attach stages that hold the lease and have passed the receipt check.
  predicate Attaching(g: Stage) {
    g.AArchive? || g.AReady? || g.ALocked? || g.ASnapped? || g.APrepared? || g.AWritten? || g.APosted?
    || g.AVerified? || g.AVetoedSnap? || g.AVetoed? || g.AVetoedLost?
  }

  predicate Admitted(g: Stage) {
    Attaching(g) || g.RChecked? || g.RPending? || g.RRestored? || g.RVerified?
  }

  predicate HoldsLease(g: Stage) {
    Admitted(g) || g.AStart? || g.RStart? || g.MStart? || g.MGuarded?
  }

  predicate HoldsConfigLock(g: Stage) {
    g.ALocked? || g.ASnapped? || g.APrepared? || g.AWritten?
  }

  // The run has put an unsettled receipt out; at the last four it has given the lease back.
  predicate Owning(g: Stage) {
    g.APrepared? || g.AWritten? || g.APosted? || g.AVerified? || g.AVetoed?
    || g.RPending? || g.RRestored? || g.RVerified? || g.ASettled? || g.ACleanReceipt? || g.ACleanRemove? || g.RSettled?
  }

  // The run may still write its receipt although no unsettled receipt of its own is out.
  predicate Late(g: Stage) {
    g.AVetoedLost? || g.ALostReceipt? || g.ALostRemove? || g.ACleanSnap? || g.ACommitted? || g.RFinished?
  }

  predicate Active(g: Stage) {
    Admitted(g) || Owning(g) || Late(g)
  }

  predicate Unsettled(r: Option<Receipt>) {
    r.Some? && (r.value.phase.Prepared? || r.value.phase.RollbackPending?)
  }

  // ---- actions ----

  datatype Action =
    | AcquireAttach(p: Agent, d: Daemon, pinned: Content, endpoint: nat)
    | AcquireRollback(p: Agent, d: Daemon, id: Id)
    | AcquireMigrate(p: Agent)
    | ReadReceipt(p: Agent)
    | Archive(p: Agent)
    | LockConfig(p: Agent)
    | Snapshot(p: Agent)
    | LoseSnapshot(p: Agent)
    | Prepare(p: Agent)
    | LosePrepare(p: Agent)
    | Veto(p: Agent)
    | LeaveVeto(p: Agent)
    | CheckClean(p: Agent)
    | CleanReceipt(p: Agent)
    | CleanSnap(p: Agent)
    | WriteConfig(p: Agent, rest: nat)
    | UnlockConfig(p: Agent)
    | VerifyPost(p: Agent)
    | SettleAttach(p: Agent)
    | Commit(p: Agent)
    | ReadRollback(p: Agent)
    | Pend(p: Agent)
    | Restore(p: Agent, rest: nat)
    | VerifyRestored(p: Agent)
    | SettleRollback(p: Agent)
    | FinishRollback(p: Agent)
    | Scan(p: Agent)
    | Migrate(p: Agent, config: Content)
    | Confirm(p: Agent)
    | Fail(p: Agent)
    | GiveUp(p: Agent)
    | CrashRun(p: Agent)
    | Outside(config: Content)

  // ---- effects ----

  function Goto(s: State, p: Agent, pc: Pc): State { s.(pcs := s.pcs[p := pc]) }
  function Stand(s: State, p: Agent, g: Stage): State { Goto(s, p, At(s, p).(stage := g)) }
  function Lease(s: State, o: Option<Agent>): State { s.(locks := s.locks.(lease := o)) }
  function ConfigLock(s: State, o: Option<Agent>): State { s.(locks := s.locks.(config := o)) }
  function SetSlot(s: State, d: Daemon, slot: Option<Receipt>): State { s.(slots := s.slots[d := slot]) }
  function SetSnap(s: State, l: Leaf, c: Content): State { s.(files := s.files.(snaps := s.files.snaps[l := c])) }
  function CutSnap(s: State, l: Leaf): State { s.(files := s.files.(snaps := s.files.snaps - {l})) }

  // Dropping whatever is held.
  function Release(l: Locks, p: Agent): Locks {
    Locks(if l.lease == Some(p) then None else l.lease, if l.config == Some(p) then None else l.config)
  }

  function Quit(s: State, p: Agent): State { Goto(s.(locks := Release(s.locks, p)), p, REST) }

  // The run's receipt becomes the current one of its daemon.
  function Write(s: State, p: Agent, r: Receipt): State {
    SetSlot(s, Of(s, p), Some(r))
  }

  function DoAcquire(s: State, p: Agent, g: Stage, rec: Receipt): State {
    if s.locks.lease.None? then Goto(Lease(s, Some(p)), p, Pc(g, rec, NOTHING)) else s
  }

  predicate Intact(s: State, r: Receipt) {
    r.leaf in s.files.snaps && s.files.snaps[r.leaf] == r.before
  }

  // A missing receipt admits; a rolled-back one admits once its snapshot is intact and
  // the entry is back; everything else refuses.
  function DoReadReceipt(s: State, p: Agent): State {
    var pc, r := At(s, p), Mine(s, p);
    if r.None? then Admit(s, p, AReady, Base(Of(s, p)))
    else if r.value.phase.RolledBack? && Intact(s, r.value) && s.config.entry == r.value.before.entry then
      Admit(s, p, AArchive, Op(Of(s, p), s.next))
    else Quit(s, p)
  }

  function Admit(s: State, p: Agent, g: Stage, leaf: Leaf): State {
    var pc := At(s, p);
    Goto(s.(next := s.next + 1), p, pc.(stage := g, rec := pc.rec.(id := s.next, leaf := leaf)))
  }

  function DoArchive(s: State, p: Agent): State {
    var r, h := Mine(s, p), s.files.history;
    if r.None? then Quit(s, p)
    else if r.value.id !in h then Stand(s.(files := s.files.(history := h[r.value.id := r.value])), p, AReady)
    else if h[r.value.id] == r.value then Stand(s, p, AReady)
    else Quit(s, p)
  }

  function DoLockConfig(s: State, p: Agent): State {
    if s.locks.config.Some? then s
    else if s.config == At(s, p).rec.before && s.config.entry.Direct? then Stand(ConfigLock(s, Some(p)), p, ALocked)
    else Quit(s, p)
  }

  function DoSnapshot(s: State, p: Agent): State {
    Stand(SetSnap(s, At(s, p).rec.leaf, s.config), p, ASnapped)
  }

  function DoPrepare(s: State, p: Agent): State {
    Stand(Write(s, p, At(s, p).rec), p, APrepared)
  }

  // A snapshot or receipt write that lands nothing vetoes the mutation.
  function DoLose(s: State, p: Agent, g: Stage): State {
    Stand(ConfigLock(s, None), p, g)
  }

  function DoVeto(s: State, p: Agent): State {
    var g := At(s, p).stage;
    if g.ALocked? then Quit(s, p)
    else Stand(ConfigLock(s, None), p, if g.ASnapped? then AVetoedSnap else AVetoed)
  }

  function DoLeaveVeto(s: State, p: Agent): State {
    var g := At(s, p).stage;
    Stand(Lease(s, None), p, if g.AVetoedSnap? then AOnlySnap else if g.AVetoed? then ACleanReceipt else ALostReceipt)
  }

  // From here on the lease is free.  The comparison with the preimage is one step, the
  // removal of the receipt, whosever it is, another.
  function DoCheckClean(s: State, p: Agent): State {
    var pc := At(s, p);
    if s.config == pc.rec.before then Stand(s, p, if pc.stage.ACleanReceipt? then ACleanRemove else ALostRemove)
    else DoFail(s, p)
  }

  function DoCleanReceipt(s: State, p: Agent): State {
    Stand(SetSlot(s, Of(s, p), None), p, ACleanSnap)
  }

  function DoCleanSnap(s: State, p: Agent): State {
    Quit(CutSnap(s, At(s, p).rec.leaf), p)
  }

  function DoWriteConfig(s: State, p: Agent, rest: nat): State {
    Stand(s.(config := Content(Http(At(s, p).rec.endpoint), rest)), p, AWritten)
  }

  function DoUnlockConfig(s: State, p: Agent): State {
    Stand(ConfigLock(s, None), p, APosted)
  }

  // The receipt, whosever it is, becomes the run's own and asks for recovery.
  function DoFail(s: State, p: Agent): State {
    Quit(Write(s, p, At(s, p).rec.(phase := RecoveryRequired)), p)
  }

  function DoVerifyPost(s: State, p: Agent): State {
    var pc := At(s, p);
    if s.config.entry == Http(pc.rec.endpoint) && s.config != pc.rec.before then
      Goto(s, p, pc.(stage := AVerified, rec := pc.rec.(after := Some(s.config))))
    else DoFail(s, p)
  }

  function DoSettle(s: State, p: Agent, g: Stage): State { Stand(Lease(s, None), p, g) }

  function DoConclude(s: State, p: Agent, g: Stage, phase: Phase): State {
    var rec := At(s, p).rec.(phase := phase);
    Goto(Write(s, p, rec), p, At(s, p).(stage := g, rec := rec))
  }

  function DoReadRollback(s: State, p: Agent): State {
    var r := Mine(s, p);
    if r.None? || r.value.id != At(s, p).rec.id || !r.value.phase.Committed? then Quit(s, p)
    else CheckRollback(s, p, r.value)
  }

  // The committed receipt of another operation, a lost snapshot or a drifted config stop here.
  function CheckRollback(s: State, p: Agent, r: Receipt): State {
    if r.after.None? || !Intact(s, r) || r.leaf.d != Of(s, p) then Quit(s, p)
    else if Some(s.config) != r.after || s.config.entry != Http(r.endpoint) then
      Quit(Write(s, p, r.(phase := RecoveryRequired)), p)
    else Goto(s, p, Pc(RChecked, r.(owner := p), s.files.snaps[r.leaf]))
  }

  function DoPend(s: State, p: Agent): State {
    var rec := At(s, p).rec.(phase := RollbackPending);
    Goto(Write(s, p, rec), p, At(s, p).(stage := RPending, rec := rec))
  }

  function DoRestore(s: State, p: Agent, rest: nat): State {
    var pc := At(s, p);
    if Some(s.config) == pc.rec.after then Stand(s.(config := Content(pc.seen.entry, rest)), p, RRestored)
    else DoFail(s, p)
  }

  function DoVerifyRestored(s: State, p: Agent): State {
    var pc := At(s, p);
    if s.config.entry == pc.seen.entry
      && s.config.entry.Direct? then Goto(s, p, pc.(stage := RVerified, seen := s.config))
    else DoFail(s, p)
  }

  // A migration looks at the receipts of every daemon.
  predicate Clear(s: State) {
    forall d :: d in s.slots ==> (s.slots[d].Some? ==> s.slots[d].value.phase.RolledBack?)
  }

  function DoScan(s: State, p: Agent): State {
    if Clear(s) then Stand(s, p, MGuarded) else Quit(s, p)
  }

  // ---- the protocol ----

  // Where a run may stand when it takes an action.
  predicate From(a: Action, g: Stage)
    requires !a.Outside?
  {
    match a
    case AcquireAttach(_, _, _, _) => g.Idle?
    case AcquireRollback(_, _, _) => g.Idle?
    case AcquireMigrate(_) => g.Idle?
    case ReadReceipt(_) => g.AStart?
    case Archive(_) => g.AArchive?
    case LockConfig(_) => g.AReady?
    case Snapshot(_) => g.ALocked?
    case LoseSnapshot(_) => g.ALocked?
    case Prepare(_) => g.ASnapped?
    case LosePrepare(_) => g.ASnapped?
    case Veto(_) => g.ALocked? || g.ASnapped? || g.APrepared?
    case LeaveVeto(_) => g.AVetoedSnap? || g.AVetoed? || g.AVetoedLost?
    case CheckClean(_) => g.ACleanReceipt? || g.ALostReceipt?
    case CleanReceipt(_) => g.ACleanRemove? || g.ALostRemove?
    case CleanSnap(_) => g.ACleanSnap? || g.AOnlySnap?
    case WriteConfig(_, _) => g.APrepared?
    case UnlockConfig(_) => g.AWritten?
    case VerifyPost(_) => g.APosted?
    case SettleAttach(_) => g.AVerified?
    case Commit(_) => g.ASettled?
    case ReadRollback(_) => g.RStart?
    case Pend(_) => g.RChecked?
    case Restore(_, _) => g.RPending?
    case VerifyRestored(_) => g.RRestored?
    case SettleRollback(_) => g.RVerified?
    case FinishRollback(_) => g.RSettled?
    case Scan(_) => g.MStart?
    case Migrate(_, _) => g.MGuarded?
    case Confirm(_) => g.ACommitted? || g.RFinished?
    case Fail(_) => Owning(g) || Late(g) || g.RChecked?
    case GiveUp(_) => (HoldsLease(g) && !Owning(g)) || g.AOnlySnap?
    case CrashRun(_) => !g.Idle?
  }

  predicate Enabled(s: State, a: Action) {
    if a.Outside? then s.locks.config.None?
    else
      && From(a, At(s, a.p).stage) && (a.Restore? || a.Migrate? ==> s.locks.config.None?)
      && (a.Confirm? ==> Mine(s, a.p) == Some(At(s, a.p).rec))
  }

  // The attach run up to its prepared receipt, its veto and clean-up, its write and commit;
  // every other action is in OtherStep.
  datatype Kind = Opens | Cleans | Closes | Others

  function KindOf(a: Action): Kind {
    match a
    case ReadReceipt(_) | Archive(_) | LockConfig(_) | Snapshot(_) | Prepare(_) => Opens
    case LoseSnapshot(_) | LosePrepare(_) | Veto(_) | LeaveVeto(_) => Cleans
    case CheckClean(_) | CleanReceipt(_) | CleanSnap(_) => Cleans
    case WriteConfig(_, _) | UnlockConfig(_) | VerifyPost(_) | SettleAttach(_) | Commit(_) => Closes
    case _ => Others
  }

  function OpenStep(s: State, a: Action): State
    requires KindOf(a).Opens?
  {
    match a
    case ReadReceipt(p) => DoReadReceipt(s, p)
    case Archive(p) => DoArchive(s, p)
    case LockConfig(p) => DoLockConfig(s, p)
    case Snapshot(p) => DoSnapshot(s, p)
    case Prepare(p) => DoPrepare(s, p)
  }

  function CleanStep(s: State, a: Action): State
    requires KindOf(a).Cleans?
  {
    match a
    case LoseSnapshot(p) => DoLose(s, p, AVetoedSnap)
    case LosePrepare(p) => DoLose(s, p, AVetoedLost)
    case Veto(p) => DoVeto(s, p)
    case LeaveVeto(p) => DoLeaveVeto(s, p)
    case CheckClean(p) => DoCheckClean(s, p)
    case CleanReceipt(p) => DoCleanReceipt(s, p)
    case CleanSnap(p) => DoCleanSnap(s, p)
  }

  function CloseStep(s: State, a: Action): State
    requires KindOf(a).Closes?
  {
    match a
    case WriteConfig(p, rest) => DoWriteConfig(s, p, rest)
    case UnlockConfig(p) => DoUnlockConfig(s, p)
    case VerifyPost(p) => DoVerifyPost(s, p)
    case SettleAttach(p) => DoSettle(s, p, ASettled)
    case Commit(p) => DoConclude(s, p, ACommitted, Committed)
  }

  function OtherStep(s: State, a: Action): State
    requires KindOf(a).Others?
  {
    match a
    case AcquireAttach(p, d, pinned, endpoint) =>
      DoAcquire(s, p, AStart, Receipt(0, p, Prepared, Base(d), pinned, None, endpoint))
    case AcquireRollback(p, d, id) => DoAcquire(s, p, RStart, REST.rec.(id := id, leaf := Base(d)))
    case AcquireMigrate(p) => DoAcquire(s, p, MStart, REST.rec)
    case ReadRollback(p) => DoReadRollback(s, p)
    case Pend(p) => DoPend(s, p)
    case Restore(p, rest) => DoRestore(s, p, rest)
    case VerifyRestored(p) => DoVerifyRestored(s, p)
    case SettleRollback(p) => DoSettle(s, p, RSettled)
    case FinishRollback(p) => DoConclude(s, p, RFinished, RolledBack)
    case Scan(p) => DoScan(s, p)
    case Migrate(_, config) => s.(config := config)
    case Confirm(p) => Quit(s, p)
    case Fail(p) => DoFail(s, p)
    case GiveUp(p) => Quit(s, p)
    case CrashRun(p) => Quit(s, p)
    case Outside(config) => s.(config := config)
  }

  function Step(s: State, a: Action): State {
    match KindOf(a)
    case Opens => OpenStep(s, a)
    case Cleans => CleanStep(s, a)
    case Closes => CloseStep(s, a)
    case Others => OtherStep(s, a)
  }

  // The actions that mutate the client entry on behalf of a run.
  predicate Mutates(a: Action) {
    a.WriteConfig? || a.Restore? || a.Migrate?
  }

  // ---- runs ----

  datatype Trace = Start(config: Content) | Then(prev: Trace, a: Action)

  ghost function End(tr: Trace): State {
    match tr
    case Start(config) => Init(config)
    case Then(prev, a) => Step(End(prev), a)
  }

  // Every action was enabled when it was taken.
  ghost predicate IsRun(tr: Trace) {
    tr.Then? ==> IsRun(tr.prev) && Enabled(End(tr.prev), tr.a)
  }

  // ---- exclusion ----

  ghost predicate PcOk(s: State, p: Agent, pc: Pc) {
    && (s.locks.lease == Some(p) <==> HoldsLease(pc.stage))
    && (s.locks.config == Some(p) <==> HoldsConfigLock(pc.stage))
    && (Active(pc.stage) ==> pc.rec.owner == p)
    && (Attaching(pc.stage) || pc.stage.AStart? ==> pc.rec.phase.Prepared? && pc.rec.owner == p)
    && SlotSide(s, p, pc)
  }

  // What a run with the lease may rely on: an unsettled receipt is its own.
  ghost predicate SlotSide(s: State, p: Agent, pc: Pc) {
    var r := SlotAt(s, pc.rec.leaf.d);
    && (Admitted(pc.stage) && Unsettled(r) ==> Owning(pc.stage) && r.value.owner == p)
    && (pc.stage.MGuarded? ==> forall d :: !Unsettled(SlotAt(s, d)))
  }

  ghost predicate Inv(s: State) {
    && (forall p :: p in s.pcs ==> PcOk(s, p, s.pcs[p]))
    && (s.locks.lease.Some? ==> s.locks.lease.value in s.pcs)
    && (s.locks.config.Some? ==> s.locks.config.value in s.pcs)
  }

  predicate LockLocal(before: Option<Agent>, after: Option<Agent>, p: Agent) {
    after == before || ((before.None? || before == Some(p)) && (after.None? || after == Some(p)))
  }

  // Without the lease no receipt becomes unsettled.
  predicate SlotLocal(x: Option<Receipt>, y: Option<Receipt>, leased: bool) {
    y == x || !Unsettled(y) || leased
  }

  // What every other run may rely on when p moves, changing no slot but d's.
  ghost predicate Local(s: State, t: State, p: Agent, d: Daemon) {
    && p in t.pcs && t.pcs == s.pcs[p := t.pcs[p]]
    && LockLocal(s.locks.lease, t.locks.lease, p) && LockLocal(s.locks.config, t.locks.config, p)
    && (t.slots == s.slots || t.slots == s.slots[d := SlotAt(t, d)])
    && SlotLocal(SlotAt(s, d), SlotAt(t, d), s.locks.lease == Some(p))
  }

  lemma OtherKeepsPc(s: State, t: State, p: Agent, d: Daemon, q: Agent)
    requires Inv(s) && Local(s, t, p, d) && q in s.pcs && q != p
    ensures PcOk(t, q, t.pcs[q])
  {
    var pc := s.pcs[q];
    assert PcOk(s, q, pc);
    assert t.pcs[q] == pc;
    if pc.stage.MGuarded? {
      forall e ensures !Unsettled(SlotAt(t, e)) {
        assert !Unsettled(SlotAt(s, e));
      }
    }
  }

  lemma LocalKeepsInv(s: State, t: State, p: Agent, d: Daemon)
    requires Inv(s) && Local(s, t, p, d) && PcOk(t, p, t.pcs[p])
    ensures Inv(t)
  {
    forall q | q in t.pcs ensures PcOk(t, q, t.pcs[q]) {
      if q != p { OtherKeepsPc(s, t, p, d, q); }
    }
  }

  lemma ReadReceiptKeepsInv(s: State, p: Agent)
    requires Inv(s) && p in s.pcs && s.pcs[p].stage.AStart?
    ensures Inv(DoReadReceipt(s, p))
  {
    assert PcOk(s, p, s.pcs[p]);
    var r := Mine(s, p);
    if r.None? {
      AdmitKeepsInv(s, p, AReady, Base(Of(s, p)));
    } else if DoReadReceipt(s, p) == Quit(s, p) {
      QuitKeepsInv(s, p);
    } else {
      AdmitKeepsInv(s, p, AArchive, Op(Of(s, p), s.next));
    }
  }

  lemma ArchiveKeepsInv(s: State, p: Agent)
    requires Inv(s) && p in s.pcs && s.pcs[p].stage.AArchive?
    ensures Inv(DoArchive(s, p))
  {
    assert PcOk(s, p, s.pcs[p]);
    var r, h := Mine(s, p), s.files.history;
    if r.None? || (r.value.id in h && h[r.value.id] != r.value) {
      QuitKeepsInv(s, p);
    } else if r.value.id in h {
      ReadyKeepsInv(s, p);
    } else {
      var f := s.files.(history := h[r.value.id := r.value]);
      FilesKeepInv(s, f);
      ReadyKeepsInv(s.(files := f), p);
    }
  }

  lemma LockConfigKeepsInv(s: State, p: Agent)
    requires Inv(s) && p in s.pcs && s.pcs[p].stage.AReady?
    ensures Inv(DoLockConfig(s, p))
  {
    assert PcOk(s, p, s.pcs[p]);
    if s.locks.config.None? {
      if s.config == At(s, p).rec.before && s.config.entry.Direct? {
        LocalKeepsInv(s, DoLockConfig(s, p), p, Of(s, p));
      } else {
        QuitKeepsInv(s, p);
      }
    }
  }

  lemma SnapshotKeepsInv(s: State, p: Agent)
    requires Inv(s) && p in s.pcs && s.pcs[p].stage.ALocked?
    ensures Inv(DoSnapshot(s, p))
  {
    assert PcOk(s, p, s.pcs[p]);
    FilesKeepInv(s, SetSnap(s, At(s, p).rec.leaf, s.config).files);
    LocalKeepsInv(SetSnap(s, At(s, p).rec.leaf, s.config), DoSnapshot(s, p), p, Of(s, p));
  }

  lemma PrepareKeepsInv(s: State, p: Agent)
    requires Inv(s) && p in s.pcs && s.pcs[p].stage.ASnapped?
    ensures Inv(DoPrepare(s, p))
  {
    assert PcOk(s, p, s.pcs[p]);
    LocalKeepsInv(s, DoPrepare(s, p), p, Of(s, p));
  }

  lemma VetoKeepsInv(s: State, p: Agent)
    requires Inv(s) && p in s.pcs && (s.pcs[p].stage.ALocked? || s.pcs[p].stage.ASnapped? || s.pcs[p].stage.APrepared?)
    ensures Inv(DoVeto(s, p))
  {
    assert PcOk(s, p, s.pcs[p]);
    if s.pcs[p].stage.ALocked? { QuitKeepsInv(s, p); } else { LocalKeepsInv(s, DoVeto(s, p), p, Of(s, p)); }
  }

  lemma LoseKeepsInv(s: State, p: Agent, g: Stage)
    requires Inv(s) && p in s.pcs
    requires (s.pcs[p].stage.ALocked? && g.AVetoedSnap?) || (s.pcs[p].stage.ASnapped? && g.AVetoedLost?)
    ensures Inv(DoLose(s, p, g))
  {
    assert PcOk(s, p, s.pcs[p]);
    LocalKeepsInv(s, DoLose(s, p, g), p, Of(s, p));
  }

  lemma LeaveVetoKeepsInv(s: State, p: Agent)
    requires Inv(s) && p in s.pcs
    requires s.pcs[p].stage.AVetoedSnap? || s.pcs[p].stage.AVetoed? || s.pcs[p].stage.AVetoedLost?
    ensures Inv(DoLeaveVeto(s, p))
  {
    assert PcOk(s, p, s.pcs[p]);
    LocalKeepsInv(s, DoLeaveVeto(s, p), p, Of(s, p));
  }

  lemma CheckCleanKeepsInv(s: State, p: Agent)
    requires Inv(s) && p in s.pcs && (s.pcs[p].stage.ACleanReceipt? || s.pcs[p].stage.ALostReceipt?)
    ensures Inv(DoCheckClean(s, p))
  {
    if s.config == At(s, p).rec.before {
      CheckedKeepsInv(s, p, if s.pcs[p].stage.ACleanReceipt? then ACleanRemove else ALostRemove);
    } else {
      FailKeepsInv(s, p);
    }
  }

  lemma CheckedKeepsInv(s: State, p: Agent, g: Stage)
    requires Inv(s) && p in s.pcs
    requires if g.ACleanRemove? then s.pcs[p].stage.ACleanReceipt? else g.ALostRemove? && s.pcs[p].stage.ALostReceipt?
    ensures Inv(Stand(s, p, g))
  {
    assert PcOk(s, p, s.pcs[p]);
    LocalKeepsInv(s, Stand(s, p, g), p, Of(s, p));
  }

  lemma CleanReceiptKeepsInv(s: State, p: Agent)
    requires Inv(s) && p in s.pcs && (s.pcs[p].stage.ACleanRemove? || s.pcs[p].stage.ALostRemove?)
    ensures Inv(DoCleanReceipt(s, p))
  {
    assert PcOk(s, p, s.pcs[p]);
    LocalKeepsInv(s, DoCleanReceipt(s, p), p, Of(s, p));
  }

  lemma CleanSnapKeepsInv(s: State, p: Agent)
    requires Inv(s) && p in s.pcs && (s.pcs[p].stage.ACleanSnap? || s.pcs[p].stage.AOnlySnap?)
    ensures Inv(DoCleanSnap(s, p))
  {
    FilesKeepInv(s, CutSnap(s, At(s, p).rec.leaf).files);
    QuitKeepsInv(CutSnap(s, At(s, p).rec.leaf), p);
  }

  lemma WriteConfigKeepsInv(s: State, p: Agent, rest: nat)
    requires Inv(s) && p in s.pcs && s.pcs[p].stage.APrepared?
    ensures Inv(DoWriteConfig(s, p, rest))
  {
    assert PcOk(s, p, s.pcs[p]);
    LocalKeepsInv(s, DoWriteConfig(s, p, rest), p, Of(s, p));
  }

  lemma UnlockConfigKeepsInv(s: State, p: Agent)
    requires Inv(s) && p in s.pcs && s.pcs[p].stage.AWritten?
    ensures Inv(DoUnlockConfig(s, p))
  {
    assert PcOk(s, p, s.pcs[p]);
    LocalKeepsInv(s, DoUnlockConfig(s, p), p, Of(s, p));
  }

  lemma VerifyPostKeepsInv(s: State, p: Agent)
    requires Inv(s) && p in s.pcs && s.pcs[p].stage.APosted?
    ensures Inv(DoVerifyPost(s, p))
  {
    assert PcOk(s, p, s.pcs[p]);
    if s.config.entry == Http(At(s, p).rec.endpoint) && s.config != At(s, p).rec.before {
      LocalKeepsInv(s, DoVerifyPost(s, p), p, Of(s, p));
    } else {
      FailKeepsInv(s, p);
    }
  }

  lemma ConcludeKeepsInv(s: State, p: Agent, g: Stage, phase: Phase)
    requires Inv(s) && p in s.pcs
    requires (s.pcs[p].stage.ASettled? && g.ACommitted? && phase.Committed?)
             || (s.pcs[p].stage.RSettled? && g.RFinished? && phase.RolledBack?)
    ensures Inv(DoConclude(s, p, g, phase))
  {
    assert PcOk(s, p, s.pcs[p]);
    LocalKeepsInv(s, DoConclude(s, p, g, phase), p, Of(s, p));
  }

  lemma CheckRollbackKeepsInv(s: State, p: Agent, r: Receipt)
    requires Inv(s) && p in s.pcs && s.pcs[p].stage.RStart? && Mine(s, p) == Some(r) && r.phase.Committed?
    ensures Inv(CheckRollback(s, p, r))
  {
    assert PcOk(s, p, s.pcs[p]);
    if r.after.None? || !Intact(s, r) || r.leaf.d != Of(s, p) {
      QuitKeepsInv(s, p);
    } else if Some(s.config) != r.after || s.config.entry != Http(r.endpoint) {
      SpoilKeepsInv(s, p, r);
    } else {
      LocalKeepsInv(s, CheckRollback(s, p, r), p, Of(s, p));
    }
  }

  lemma ReadRollbackKeepsInv(s: State, p: Agent)
    requires Inv(s) && p in s.pcs && s.pcs[p].stage.RStart?
    ensures Inv(DoReadRollback(s, p))
  {
    assert PcOk(s, p, s.pcs[p]);
    var r := Mine(s, p);
    if r.None? || r.value.id != At(s, p).rec.id || !r.value.phase.Committed? {
      QuitKeepsInv(s, p);
    } else {
      CheckRollbackKeepsInv(s, p, r.value);
    }
  }

  lemma PendKeepsInv(s: State, p: Agent)
    requires Inv(s) && p in s.pcs && s.pcs[p].stage.RChecked?
    ensures Inv(DoPend(s, p))
  {
    assert PcOk(s, p, s.pcs[p]);
    LocalKeepsInv(s, DoPend(s, p), p, Of(s, p));
  }

  lemma RestoreKeepsInv(s: State, p: Agent, rest: nat)
    requires Inv(s) && p in s.pcs && s.pcs[p].stage.RPending?
    ensures Inv(DoRestore(s, p, rest))
  {
    assert PcOk(s, p, s.pcs[p]);
    if Some(s.config) == At(s, p).rec.after {
      LocalKeepsInv(s, DoRestore(s, p, rest), p, Of(s, p));
    } else {
      FailKeepsInv(s, p);
    }
  }

  lemma VerifyRestoredKeepsInv(s: State, p: Agent)
    requires Inv(s) && p in s.pcs && s.pcs[p].stage.RRestored?
    ensures Inv(DoVerifyRestored(s, p))
  {
    assert PcOk(s, p, s.pcs[p]);
    if s.config.entry == At(s, p).seen.entry && s.config.entry.Direct? {
      LocalKeepsInv(s, DoVerifyRestored(s, p), p, Of(s, p));
    } else {
      FailKeepsInv(s, p);
    }
  }

  lemma ScanKeepsInv(s: State, p: Agent)
    requires Inv(s) && p in s.pcs && s.pcs[p].stage.MStart?
    ensures Inv(DoScan(s, p))
  {
    assert PcOk(s, p, s.pcs[p]);
    if Clear(s) {
      var t := Stand(s, p, MGuarded);
      forall d ensures !Unsettled(SlotAt(t, d)) {
        assert !Unsettled(SlotAt(s, d));
      }
      LocalKeepsInv(s, t, p, Of(s, p));
    } else {
      QuitKeepsInv(s, p);
    }
  }

  // No file is part of the exclusion.
  lemma FilesKeepInv(s: State, f: Files)
    requires Inv(s)
    ensures Inv(s.(files := f))
  {
    var t := s.(files := f);
    forall p | p in t.pcs ensures PcOk(t, p, t.pcs[p]) {
      SameSlots(s, t, p);
    }
  }

  lemma SameSlots(s: State, t: State, p: Agent)
    requires Inv(s) && p in s.pcs && t.pcs == s.pcs && t.slots == s.slots && t.locks == s.locks
    ensures PcOk(t, p, t.pcs[p])
  {
    assert PcOk(s, p, s.pcs[p]);
    if s.pcs[p].stage.MGuarded? {
      forall d ensures !Unsettled(SlotAt(t, d)) {
        assert !Unsettled(SlotAt(s, d));
      }
    }
  }

  // A receipt that asks for recovery, over whatever was there.
  lemma SpoilKeepsInv(s: State, p: Agent, r: Receipt)
    requires Inv(s) && p in s.pcs
    ensures Inv(Quit(Write(s, p, r.(phase := RecoveryRequired)), p))
  {
    assert PcOk(s, p, s.pcs[p]);
    LocalKeepsInv(s, Quit(Write(s, p, r.(phase := RecoveryRequired)), p), p, Of(s, p));
  }

  lemma AdmitKeepsInv(s: State, p: Agent, g: Stage, leaf: Leaf)
    requires Inv(s) && p in s.pcs && s.pcs[p].stage.AStart? && (g.AReady? || g.AArchive?) && leaf.d == Of(s, p)
    requires !Unsettled(Mine(s, p))
    ensures Inv(Admit(s, p, g, leaf))
  {
    assert PcOk(s, p, s.pcs[p]);
    LocalKeepsInv(s, Admit(s, p, g, leaf), p, Of(s, p));
  }

  lemma ReadyKeepsInv(s: State, p: Agent)
    requires Inv(s) && p in s.pcs && s.pcs[p].stage.AArchive?
    ensures Inv(Stand(s, p, AReady))
  {
    assert PcOk(s, p, s.pcs[p]);
    LocalKeepsInv(s, Stand(s, p, AReady), p, Of(s, p));
  }

  lemma AcquireKeepsInv(s: State, p: Agent, g: Stage, rec: Receipt)
    requires Inv(s) && At(s, p).stage.Idle? && (g.AStart? || g.RStart? || g.MStart?)
    requires g.AStart? ==> rec.phase.Prepared? && rec.owner == p
    ensures Inv(DoAcquire(s, p, g, rec))
  {
    if p in s.pcs { assert PcOk(s, p, s.pcs[p]); }
    if s.locks.lease.None? { LocalKeepsInv(s, DoAcquire(s, p, g, rec), p, Of(s, p)); }
  }

  lemma SettleKeepsInv(s: State, p: Agent, g: Stage)
    requires Inv(s) && p in s.pcs
    requires (s.pcs[p].stage.AVerified? && g.ASettled?) || (s.pcs[p].stage.RVerified? && g.RSettled?)
    ensures Inv(DoSettle(s, p, g))
  {
    assert PcOk(s, p, s.pcs[p]);
    LocalKeepsInv(s, DoSettle(s, p, g), p, Of(s, p));
  }

  lemma FailKeepsInv(s: State, p: Agent)
    requires Inv(s) && p in s.pcs
    ensures Inv(DoFail(s, p))
  {
    SpoilKeepsInv(s, p, At(s, p).rec);
  }

  lemma QuitKeepsInv(s: State, p: Agent)
    requires Inv(s) && p in s.pcs
    ensures Inv(Quit(s, p))
  {
    assert PcOk(s, p, s.pcs[p]);
    LocalKeepsInv(s, Quit(s, p), p, Of(s, p));
  }

  lemma EditKeepsInv(s: State, config: Content)
    requires Inv(s)
    ensures Inv(s.(config := config))
  {
    var t := s.(config := config);
    forall p | p in t.pcs ensures PcOk(t, p, t.pcs[p]) {
      SameSlots(s, t, p);
    }
  }

  lemma OpenStepKeepsInv(s: State, a: Action)
    requires Inv(s) && Enabled(s, a) && KindOf(a).Opens?
    ensures Inv(OpenStep(s, a))
  {
    match a {
      case ReadReceipt(p) => ReadReceiptKeepsInv(s, p);
      case Archive(p) => ArchiveKeepsInv(s, p);
      case LockConfig(p) => LockConfigKeepsInv(s, p);
      case Snapshot(p) => SnapshotKeepsInv(s, p);
      case Prepare(p) => PrepareKeepsInv(s, p);
    }
  }

  lemma CleanStepKeepsInv(s: State, a: Action)
    requires Inv(s) && Enabled(s, a) && KindOf(a).Cleans?
    ensures Inv(CleanStep(s, a))
  {
    match a {
      case LoseSnapshot(p) => LoseKeepsInv(s, p, AVetoedSnap);
      case LosePrepare(p) => LoseKeepsInv(s, p, AVetoedLost);
      case Veto(p) => VetoKeepsInv(s, p);
      case LeaveVeto(p) => LeaveVetoKeepsInv(s, p);
      case CheckClean(p) => CheckCleanKeepsInv(s, p);
      case CleanReceipt(p) => CleanReceiptKeepsInv(s, p);
      case CleanSnap(p) => CleanSnapKeepsInv(s, p);
    }
  }

  lemma CloseStepKeepsInv(s: State, a: Action)
    requires Inv(s) && Enabled(s, a) && KindOf(a).Closes?
    ensures Inv(CloseStep(s, a))
  {
    match a {
      case WriteConfig(p, rest) => WriteConfigKeepsInv(s, p, rest);
      case UnlockConfig(p) => UnlockConfigKeepsInv(s, p);
      case VerifyPost(p) => VerifyPostKeepsInv(s, p);
      case SettleAttach(p) => SettleKeepsInv(s, p, ASettled);
      case Commit(p) => ConcludeKeepsInv(s, p, ACommitted, Committed);
    }
  }

  lemma OtherStepKeepsInv(s: State, a: Action)
    requires Inv(s) && Enabled(s, a) && KindOf(a).Others?
    ensures Inv(OtherStep(s, a))
  {
    match a {
      case AcquireAttach(p, d, pinned, endpoint) =>
        AcquireKeepsInv(s, p, AStart, Receipt(0, p, Prepared, Base(d), pinned, None, endpoint));
      case AcquireRollback(p, d, id) => AcquireKeepsInv(s, p, RStart, REST.rec.(id := id, leaf := Base(d)));
      case AcquireMigrate(p) => AcquireKeepsInv(s, p, MStart, REST.rec);
      case ReadRollback(p) => ReadRollbackKeepsInv(s, p);
      case Pend(p) => PendKeepsInv(s, p);
      case Restore(p, rest) => RestoreKeepsInv(s, p, rest);
      case VerifyRestored(p) => VerifyRestoredKeepsInv(s, p);
      case SettleRollback(p) => SettleKeepsInv(s, p, RSettled);
      case FinishRollback(p) => ConcludeKeepsInv(s, p, RFinished, RolledBack);
      case Scan(p) => ScanKeepsInv(s, p);
      case Migrate(p, config) => EditKeepsInv(s, config);
      case Confirm(p) => QuitKeepsInv(s, p);
      case Fail(p) => FailKeepsInv(s, p);
      case GiveUp(p) => QuitKeepsInv(s, p);
      case CrashRun(p) => QuitKeepsInv(s, p);
      case Outside(config) => EditKeepsInv(s, config);
    }
  }

  lemma StepKeepsInv(s: State, a: Action)
    requires Inv(s) && Enabled(s, a)
    ensures Inv(Step(s, a))
  {
    match KindOf(a)
    case Opens => OpenStepKeepsInv(s, a);
    case Cleans => CleanStepKeepsInv(s, a);
    case Closes => CloseStepKeepsInv(s, a);
    case Others => OtherStepKeepsInv(s, a);
  }

  lemma {:induction false} RunKeepsInv(tr: Trace)
    requires IsRun(tr)
    ensures Inv(End(tr))
  {
    if tr.Then? {
      RunKeepsInv(tr.prev);
      StepKeepsInv(End(tr.prev), tr.a);
    }
  }

  ghost predicate Reachable(s: State) {
    exists tr :: IsRun(tr) && s == End(tr)
  }

  lemma ReachableInv(s: State)
    requires Reachable(s)
    ensures Inv(s)
  {
    var tr :| IsRun(tr) && s == End(tr);
    RunKeepsInv(tr);
  }

  // The mutation a is for daemon d, or for all of them.
  predicate Concerns(s: State, a: Action, d: Daemon)
    requires Mutates(a)
  {
    a.Migrate? || Of(s, a.p) == d
  }

  /** While a prepared or rollback-pending receipt of daemon d is out, nobody but the run that
      wrote it mutates the key for d, and no guarded migration does at all, even in the window
      where the lease is already free.  It says nothing once the receipt is gone; AttachPins
      says when a run can count on its receipt. */
  lemma UnsettledExcludesOthers(s: State, a: Action, d: Daemon)
    requires Reachable(s) && Enabled(s, a) && Mutates(a) && Concerns(s, a, d)
    requires Unsettled(SlotAt(s, d))
    ensures !a.Migrate? && a.p == SlotAt(s, d).value.owner
  {
    ReachableInv(s);
    assert PcOk(s, a.p, s.pcs[a.p]);
    assert a.Migrate? ==> !Unsettled(SlotAt(s, d));
  }

  lemma MutatorHasLease(s: State, a: Action)
    requires Inv(s) && Enabled(s, a) && Mutates(a)
    ensures s.locks.lease == Some(a.p)
  {
    assert PcOk(s, a.p, s.pcs[a.p]);
  }

  /** At most one run can mutate the key at any instant, whatever its daemon. */
  lemma OneMutator(s: State, a: Action, b: Action)
    requires Reachable(s) && Enabled(s, a) && Enabled(s, b) && Mutates(a) && Mutates(b)
    ensures a.p == b.p
  {
    ReachableInv(s);
    MutatorHasLease(s, a);
    MutatorHasLease(s, b);
  }

  // ---- a run of another daemon ----

  lemma ActOpens(tr: Trace, a: Action) returns (more: Trace)
    requires IsRun(tr) && Enabled(End(tr), a) && KindOf(a).Opens?
    ensures IsRun(more) && End(more) == OpenStep(End(tr), a) && more == Then(tr, a)
  {
    more := Then(tr, a);
  }

  lemma ActCleans(tr: Trace, a: Action) returns (more: Trace)
    requires IsRun(tr) && Enabled(End(tr), a) && KindOf(a).Cleans?
    ensures IsRun(more) && End(more) == CleanStep(End(tr), a) && more == Then(tr, a)
  {
    more := Then(tr, a);
  }

  lemma ActCloses(tr: Trace, a: Action) returns (more: Trace)
    requires IsRun(tr) && Enabled(End(tr), a) && KindOf(a).Closes?
    ensures IsRun(more) && End(more) == CloseStep(End(tr), a) && more == Then(tr, a)
  {
    more := Then(tr, a);
  }

  lemma ActOthers(tr: Trace, a: Action) returns (more: Trace)
    requires IsRun(tr) && Enabled(End(tr), a) && KindOf(a).Others?
    ensures IsRun(more) && End(more) == OtherStep(End(tr), a) && more == Then(tr, a)
  {
    more := Then(tr, a);
  }

  // The config is c, the key is free for daemon d, and p and q stand where they stand.
  ghost predicate Shows(s: State, c: Content, lease: Option<Agent>, lock: Option<Agent>, p: Agent, pc: Pc, q: Agent,
                        qc: Pc) {
    s.config == c && s.locks == Locks(lease, lock) && At(s, p) == pc && At(s, q) == qc
  }

  function Fresh(p: Agent, d: Daemon, c: Content, id: Id): Receipt {
    Receipt(id, p, Prepared, Base(d), c, None, 0)
  }

  // Attach of c for daemon d by p, step by step, while q stands still.
  lemma PlayAcquire(tr: Trace, c: Content, p: Agent, d: Daemon, q: Agent) returns (more: Trace)
    requires IsRun(tr) && p != q && Shows(End(tr), c, None, None, p, REST, q, At(End(tr), q))
    ensures IsRun(more)
            && Shows(End(more), c, Some(p), None, p, Pc(AStart, Fresh(p, d, c, 0), NOTHING), q, At(End(tr), q))
    ensures End(more).slots == End(tr).slots && End(more).files == End(tr).files && End(more).next == End(tr).next
  {
    more := ActOthers(tr, AcquireAttach(p, d, c, 0));
  }

  lemma PlayRead(tr: Trace, c: Content, p: Agent, d: Daemon, q: Agent) returns (more: Trace)
    requires IsRun(tr) && p != q && SlotAt(End(tr), d).None?
    requires Shows(End(tr), c, Some(p), None, p, Pc(AStart, Fresh(p, d, c, 0), NOTHING), q, At(End(tr), q))
    ensures var n := End(tr).next;
            && IsRun(more) && End(more).slots == End(tr).slots && End(more).files == End(tr).files
              && End(more).next == n + 1
            && Shows(End(more), c, Some(p), None, p, Pc(AReady, Fresh(p, d, c, n), NOTHING), q, At(End(tr), q))
  {
    more := ActOpens(tr, ReadReceipt(p));
  }

  lemma PlayLock(tr: Trace, c: Content, p: Agent, r: Receipt, q: Agent) returns (more: Trace)
    requires IsRun(tr) && p != q && c.entry.Direct? && r.before == c
    requires Shows(End(tr), c, Some(p), None, p, Pc(AReady, r, NOTHING), q, At(End(tr), q))
    ensures IsRun(more) && End(more).slots == End(tr).slots && End(more).files == End(tr).files
            && End(more).next == End(tr).next
    ensures Shows(End(more), c, Some(p), Some(p), p, Pc(ALocked, r, NOTHING), q, At(End(tr), q))
  {
    more := ActOpens(tr, LockConfig(p));
  }

  lemma PlaySnapshot(tr: Trace, c: Content, p: Agent, r: Receipt, q: Agent) returns (more: Trace)
    requires IsRun(tr) && p != q
    requires Shows(End(tr), c, Some(p), Some(p), p, Pc(ALocked, r, NOTHING), q, At(End(tr), q))
    ensures IsRun(more) && End(more).slots == End(tr).slots && End(more).next == End(tr).next
    ensures End(more).files.history == End(tr).files.history
            && End(more).files.snaps == End(tr).files.snaps[r.leaf := c]
    ensures Shows(End(more), c, Some(p), Some(p), p, Pc(ASnapped, r, NOTHING), q, At(End(tr), q))
  {
    more := ActOpens(tr, Snapshot(p));
  }

  lemma PlayPrepare(tr: Trace, c: Content, p: Agent, r: Receipt, q: Agent) returns (more: Trace)
    requires IsRun(tr) && p != q
    requires Shows(End(tr), c, Some(p), Some(p), p, Pc(ASnapped, r, NOTHING), q, At(End(tr), q))
    ensures IsRun(more) && End(more).files == End(tr).files && End(more).next == End(tr).next
    ensures End(more).slots == End(tr).slots[r.leaf.d := Some(r)]
    ensures Shows(End(more), c, Some(p), Some(p), p, Pc(APrepared, r, NOTHING), q, At(End(tr), q))
  {
    more := ActOpens(tr, Prepare(p));
  }

  // ... up to its snapshot,
  lemma PlaySnapped(tr: Trace, c: Content, p: Agent, d: Daemon, q: Agent) returns (more: Trace)
    requires IsRun(tr) && p != q && c.entry.Direct? && SlotAt(End(tr), d).None?
    requires Shows(End(tr), c, None, None, p, REST, q, At(End(tr), q))
    ensures var r := Fresh(p, d, c, End(tr).next);
            && IsRun(more) && Shows(End(more), c, Some(p), Some(p), p, Pc(ASnapped, r, NOTHING), q, At(End(tr), q))
            && End(more).slots == End(tr).slots
            && End(more).files.snaps == End(tr).files.snaps[Base(d) := c]
            && End(more).files.history == End(tr).files.history
  {
    var r := Fresh(p, d, c, End(tr).next);
    var a := PlayAcquire(tr, c, p, d, q);
    var b := PlayRead(a, c, p, d, q);
    var x := PlayLock(b, c, p, r, q);
    more := PlaySnapshot(x, c, p, r, q);
  }

  // ... and up to its prepared receipt.
  lemma PlayPrepared(tr: Trace, c: Content, p: Agent, d: Daemon, q: Agent) returns (more: Trace)
    requires IsRun(tr) && p != q && c.entry.Direct? && SlotAt(End(tr), d).None?
    requires Shows(End(tr), c, None, None, p, REST, q, At(End(tr), q))
    ensures var r := Fresh(p, d, c, End(tr).next);
            && IsRun(more) && Shows(End(more), c, Some(p), Some(p), p, Pc(APrepared, r, NOTHING), q, At(End(tr), q))
            && End(more).slots == End(tr).slots[d := Some(r)]
            && End(more).files.snaps == End(tr).files.snaps[Base(d) := c]
            && End(more).files.history == End(tr).files.history
  {
    var x := PlaySnapped(tr, c, p, d, q);
    more := PlayPrepare(x, c, p, Fresh(p, d, c, End(tr).next), q);
  }

  /** For every two daemons: after an attach for d dies with its receipt prepared, an attach for e
      can mutate the key under it. */
  lemma OtherDaemonIntrudes(c: Content, d: Daemon, e: Daemon) returns (tr: Trace, a: Action)
    requires d != e && c.entry.Direct?
    ensures IsRun(tr) && Enabled(End(tr), a) && Mutates(a)
    ensures Unsettled(SlotAt(End(tr), d)) && SlotAt(End(tr), d).value.owner != a.p
  {
    var x := PlayPrepared(Start(c), c, 0, d, 1);
    var y := ActOthers(x, CrashRun(0));
    tr := PlayPrepared(y, c, 1, e, 0);
    a := WriteConfig(1, 0);
  }
}
