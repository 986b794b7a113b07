/**
 The per-manifest adopt lease: a namespace guard, one slot file per manifest,
 an identity check at settlement and, on Windows, delete-on-close.

 Any number of processes run acquire, unlock and releaseAndRemove.  Every system
 call that another process can observe is one action, and a process may crash
 between any two of them (the operating system then drops its locks and closes
 its handles).  A name marked for deletion refuses new opens and disappears only
 when its last handle closes, as the legacy Windows disposition does.
 */
module Lease {
  import opened Wrappers

  type Proc = nat
  type Manifest = nat  // a manifest name

  // A file object, identified by the name it was created under and a serial number.
  datatype FileId = File(slot: Manifest, serial: nat)

  datatype Platform = Windows | Posix

  datatype Report = Settled | GuardBusy | Busy | SlotReplaced | Cleanup

  // Where a process stands inside acquire, unlock or releaseAndRemove.
  datatype Stage =
    | Idle
    | Guarded       // guard locked, slot not open yet
    | Opened        // slot open, not locked
    | Refused       // slot open, about to be closed under the guard
    | Locked        // slot locked, guard still held
    | Retreating    // failed outside the guard, in acquire or settlement: slot still locked
    | Held          // the lease is out
    | Unlocking     // lock dropped, handle not yet closed, guard not held
    | Settling      // guard taken again
    | Comparing     // canonical name reopened as a second handle
    | Compared
    | Marked        // delete disposition attempted
    | Dropped       // lock dropped under the guard
    | Closed        // handle closed under the guard
    | Leaving       // only the guard is left

  // How a call may fail: without effect, or after it.
  datatype Fault = Fine | Fails | FailsLate

  // How a settlement stands: clean if every call so far succeeded, blind if one of the calls
  // that look at the canonical name failed, and what it will return.
  datatype Result = Result(clean: bool, blind: bool, why: Report)

  // m is the manifest, f the slot file opened for it, again the file behind the second handle.
  datatype Pc = Pc(stage: Stage, m: Manifest, f: FileId, again: FileId, out: Result)

  const REST := Pc(Idle, 0, File(0, 0), File(0, 0), Result(false, false, Settled))

  // Bookkeeping: what was ever reported, whether a blind settlement has returned, and
  // whether every look at a canonical name has worked so far.
  datatype Log = Log(replaced: bool, spoiled: bool, blinded: bool, sighted: bool)

  datatype State = State(
    platform: Platform,
    guard: Option<Proc>,
    names: map<Manifest, FileId>,    // canonical slot names
    pending: set<FileId>,            // delete-on-close set
    locks: map<FileId, Proc>,
    pcs: map<Proc, Pc>,
    next: nat,
    log: Log)

  datatype Action =
    | TakeGuard(p: Proc, m: Manifest, fault: Fault)
    | OpenSlot(p: Proc, fault: Fault)
    | LockSlot(p: Proc, fault: Fault)
    | CloseRefused(p: Proc)
    | ReturnLease(p: Proc, fault: Fault)
    | Unlock(p: Proc, fault: Fault)
    | CloseUnlocked(p: Proc)
    | Settle(p: Proc, fault: Fault)
    | ReopenName(p: Proc, fault: Fault)
    | CompareIdentity(p: Proc, fault: Fault)
    | MarkDelete(p: Proc, fault: Fault)
    | DropLock(p: Proc, fault: Fault)
    | CloseSettled(p: Proc, fault: Fault)
    | ReadBack(p: Proc, fault: Fault)
    | Leave(p: Proc, fault: Fault)
    | Crash(p: Proc)

  function Init(platform: Platform): State {
    State(platform, None, map[], {}, map[], map[], 0, Log(false, false, false, true))
  }

  function At(s: State, p: Proc): Pc {
    if p in s.pcs then s.pcs[p] else REST
  }

  // ---- what a process holds, read off its position ----

  predicate HasSlot(g: Stage) {
    !g.Idle? && !g.Guarded? && !g.Closed? && !g.Leaving?
  }

  predicate HasOpen(pc: Pc, f: FileId) {
    (HasSlot(pc.stage) && pc.f == f) || (pc.stage.Comparing? && pc.again == f)
  }

  // From the return of acquire until the lock is dropped.
  predicate OwnsLease(g: Stage) {
    g.Held? || g.Settling? || g.Comparing? || g.Compared? || g.Marked?
  }

  predicate HasLock(g: Stage) {
    g.Locked? || g.Retreating? || OwnsLease(g)
  }

  predicate InGuard(g: Stage) {
    !g.Idle? && !g.Held? && !g.Retreating? && !g.Unlocking?
  }

  ghost predicate OpenSomewhere(s: State, f: FileId) {
    exists q :: q in s.pcs && HasOpen(s.pcs[q], f)
  }

  // ---- system calls ----

  function Goto(s: State, p: Proc, pc: Pc): State {
    s.(pcs := s.pcs[p := pc])
  }

  function Note(s: State, r: Report): State {
    s.(log := s.log.(replaced := s.log.replaced || r.SlotReplaced?, spoiled := s.log.spoiled || r.Cleanup?))
  }

  function Lose(s: State): State {
    s.(log := s.log.(sighted := false))
  }

  function FreeLock(s: State, f: FileId): State {
    s.(locks := s.locks - {f})
  }

  // Closing a handle drops a lock its process still has on the file.
  function CloseLock(s: State, p: Proc, f: FileId): State {
    if f in s.locks && s.locks[f] == p then FreeLock(s, f) else s
  }

  // Closing the last handle of a file marked for deletion unlinks its name.
  ghost function Sweep(s: State): State {
    s.(names := map m | m in s.names && !(s.names[m] in s.pending && !OpenSomewhere(s, s.names[m])) :: s.names[m])
  }

  predicate Openable(s: State, m: Manifest) {
    m in s.names && s.names[m] !in s.pending
  }

  // ---- the protocol, one observable call at a time ----

  predicate From(a: Action, g: Stage) {
    match a
    case TakeGuard(_, _, _) => g.Idle?
    case OpenSlot(_, _) => g.Guarded?
    case LockSlot(_, _) => g.Opened?
    case CloseRefused(_) => g.Refused?
    case ReturnLease(_, _) => g.Locked?
    case Unlock(_, _) => g.Held? || g.Retreating?
    case CloseUnlocked(_) => g.Unlocking?
    case Settle(_, _) => g.Held?
    case ReopenName(_, _) => g.Settling?
    case CompareIdentity(_, _) => g.Comparing?
    case MarkDelete(_, _) => g.Compared?
    case DropLock(_, _) => g.Marked?
    case CloseSettled(_, _) => g.Dropped?
    case ReadBack(_, _) => g.Closed?
    case Leave(_, _) => g.Leaving?
    case Crash(_) => !g.Idle?
  }

  predicate Enabled(s: State, a: Action) {
    From(a, At(s, a.p).stage)
  }

  // What a settlement finds at its end when the last look at the name works.
  function Verdict(s: State, pc: Pc): Report {
    if !pc.out.clean then (if pc.out.blind then SlotReplaced else Cleanup)
    else if s.platform.Windows? then
      (if pc.m !in s.names then Settled else if Openable(s, pc.m) then SlotReplaced else Cleanup)
    else if Openable(s, pc.m) && s.names[pc.m] == pc.f then Settled else SlotReplaced
  }

  // A failing call on top of a report.
  function Worse(r: Report): Report { if r.SlotReplaced? then r else Cleanup }

  function DoTakeGuard(s: State, p: Proc, m: Manifest, fault: Fault): State {
    if !fault.Fine? then Note(s, Cleanup)
    else if s.guard.None? then Goto(s.(guard := Some(p)), p, At(s, p).(stage := Guarded, m := m))
    else Note(s, GuardBusy)
  }

  function Create(s: State, m: Manifest): State {
    s.(names := s.names[m := File(m, s.next)], next := s.next + 1)
  }

  // A late failure leaves a newly created file behind.
  function DoOpenSlot(s: State, p: Proc, fault: Fault): State {
    var m := At(s, p).m;
    if fault.Fails? then Turn(s, p)
    else OpenExisting(if m in s.names then s else Create(s, m), p, fault)
  }

  function Turn(s: State, p: Proc): State {
    Goto(s, p, At(s, p).(stage := Leaving, out := At(s, p).out.(why := Cleanup)))
  }

  function OpenExisting(s: State, p: Proc, fault: Fault): State
    requires At(s, p).m in s.names
  {
    var pc := At(s, p);
    if fault.FailsLate? || s.names[pc.m] in s.pending then Turn(s, p)
    else Goto(s, p, pc.(stage := Opened, f := s.names[pc.m]))
  }

  function DoLockSlot(s: State, p: Proc, fault: Fault): State {
    var pc := At(s, p);
    if !fault.Fine? then Goto(s, p, pc.(stage := Refused, out := pc.out.(why := Cleanup)))
    else if pc.f in s.locks then Goto(s, p, pc.(stage := Refused, out := pc.out.(why := Busy)))
    else Goto(s.(locks := s.locks[pc.f := p]), p, pc.(stage := Locked))
  }

  function DoCloseRefused(s: State, p: Proc): State {
    Goto(s, p, At(s, p).(stage := Leaving))
  }

  // Failing to read the identity unlocks and closes under the guard; failing to give
  // the guard back cleanly does so after the guard is free.
  function DoReturnLease(s: State, p: Proc, fault: Fault): State {
    var pc := At(s, p);
    match fault
    case Fine => Goto(s.(guard := None), p, pc.(stage := Held))
    case Fails => Goto(FreeLock(s, pc.f), p, pc.(stage := Refused, out := pc.out.(why := Cleanup)))
    case FailsLate => Note(Goto(s.(guard := None), p, pc.(stage := Retreating)), Cleanup)
  }

  // A failing unlock leaves the lock to the closing call.
  function DoUnlock(s: State, p: Proc, fault: Fault): State {
    var pc := At(s, p);
    if fault.Fine? then Goto(FreeLock(s, pc.f), p, pc.(stage := Unlocking))
    else Note(Goto(s, p, pc.(stage := Unlocking)), Cleanup)
  }

  function DoCloseUnlocked(s: State, p: Proc): State {
    Goto(CloseLock(s, p, At(s, p).f), p, REST)
  }

  function DoSettle(s: State, p: Proc, fault: Fault): State {
    var pc := At(s, p);
    if fault.Fine? && s.guard.None? then Goto(s.(guard := Some(p)), p, pc.(stage := Settling))
    else Note(Goto(s, p, pc.(stage := Retreating)), if fault.Fine? then GuardBusy else Cleanup)
  }

  function DoReopenName(s: State, p: Proc, fault: Fault): State {
    var pc := At(s, p);
    if fault.Fine? && Openable(s, pc.m) then Goto(s, p, pc.(stage := Comparing, again := s.names[pc.m]))
    else Goto(Lose(s), p, pc.(stage := Compared, out := pc.out.(clean := false, blind := true)))
  }

  // A late failure is one of closing the second handle, after the comparison.
  function DoCompareIdentity(s: State, p: Proc, fault: Fault): State {
    var pc := At(s, p);
    if !fault.Fails? && pc.again == pc.f then
      Goto(s, p, pc.(stage := Compared, out := pc.out.(clean := fault.Fine?)))
    else Goto(Lose(s), p, pc.(stage := Compared, out := pc.out.(clean := false, blind := true)))
  }

  function DoMarkDelete(s: State, p: Proc, fault: Fault): State {
    var pc := At(s, p);
    if s.platform.Posix? then Goto(s, p, pc.(stage := Marked))
    else if fault.Fails? then Goto(s, p, pc.(stage := Marked, out := pc.out.(clean := false)))
    else Goto(s.(pending := s.pending + {pc.f}), p,
              pc.(stage := Marked, out := pc.out.(clean := pc.out.clean && fault.Fine?)))
  }

  function DoDropLock(s: State, p: Proc, fault: Fault): State {
    var pc := At(s, p);
    if fault.Fine? then Goto(FreeLock(s, pc.f), p, pc.(stage := Dropped))
    else Goto(s, p, pc.(stage := Dropped, out := pc.out.(clean := false)))
  }

  function DoCloseSettled(s: State, p: Proc, fault: Fault): State {
    var pc := At(s, p);
    Goto(CloseLock(s, p, pc.f), p, pc.(stage := Closed, out := pc.out.(clean := pc.out.clean && fault.Fine?)))
  }

  // The last look fails as a clean-up failure on Windows and as a replaced slot on POSIX; a
  // late failure is one of the calls after it.
  function DoReadBack(s: State, p: Proc, fault: Fault): State {
    var pc := At(s, p);
    if fault.Fine? || !pc.out.clean then Goto(s, p, pc.(stage := Leaving, out := pc.out.(why := Verdict(s, pc))))
    else if fault.FailsLate? then
      Goto(s, p, pc.(stage := Leaving, out := pc.out.(why := Worse(Verdict(s, pc)))))
    else if s.platform.Windows? then Goto(s, p, pc.(stage := Leaving, out := pc.out.(why := Cleanup)))
    else Goto(Lose(s), p, pc.(stage := Leaving, out := pc.out.(why := SlotReplaced, blind := true)))
  }

  function DoLeave(s: State, p: Proc, fault: Fault): State {
    var pc := At(s, p);
    Note(Goto(s.(guard := None, log := s.log.(blinded := s.log.blinded || pc.out.blind)), p, REST),
         if fault.Fine? || pc.out.why.SlotReplaced? then pc.out.why else Cleanup)
  }

  function DoCrash(s: State, p: Proc): State {
    Goto(s.(guard := if s.guard == Some(p) then None else s.guard,
            locks := map f | f in s.locks && s.locks[f] != p :: s.locks[f]), p, REST)
  }

  predicate Settlement(a: Action) {
    a.Settle? || a.ReopenName? || a.CompareIdentity? || a.MarkDelete? || a.DropLock? || a.CloseSettled?
      || a.ReadBack? || a.Leave?
  }

  function AcquireMove(s: State, a: Action): State
    requires !Settlement(a)
  {
    match a
    case TakeGuard(p, m, fault) => DoTakeGuard(s, p, m, fault)
    case OpenSlot(p, fault) => DoOpenSlot(s, p, fault)
    case LockSlot(p, fault) => DoLockSlot(s, p, fault)
    case CloseRefused(p) => DoCloseRefused(s, p)
    case ReturnLease(p, fault) => DoReturnLease(s, p, fault)
    case Unlock(p, fault) => DoUnlock(s, p, fault)
    case CloseUnlocked(p) => DoCloseUnlocked(s, p)
    case Crash(p) => DoCrash(s, p)
  }

  function SettleMove(s: State, a: Action): State
    requires Settlement(a)
  {
    match a
    case Settle(p, fault) => DoSettle(s, p, fault)
    case ReopenName(p, fault) => DoReopenName(s, p, fault)
    case CompareIdentity(p, fault) => DoCompareIdentity(s, p, fault)
    case MarkDelete(p, fault) => DoMarkDelete(s, p, fault)
    case DropLock(p, fault) => DoDropLock(s, p, fault)
    case CloseSettled(p, fault) => DoCloseSettled(s, p, fault)
    case ReadBack(p, fault) => DoReadBack(s, p, fault)
    case Leave(p, fault) => DoLeave(s, p, fault)
  }

  // The move of a process up to, but not including, the unlinking a close may cause.
  function Move(s: State, a: Action): State
    requires Enabled(s, a)
  {
    if Settlement(a) then SettleMove(s, a) else AcquireMove(s, a)
  }

  ghost function Step(s: State, a: Action): State
    requires Enabled(s, a)
  {
    Sweep(Move(s, a))
  }

  // ---- runs ----

  datatype Trace = Start(platform: Platform) | Then(prev: Trace, a: Action)

  ghost function End(tr: Trace): State {
    match tr
    case Start(platform) => Init(platform)
    case Then(prev, a) => if Enabled(End(prev), a) then Step(End(prev), a) else End(prev)
  }

  // Every action was enabled when it was taken.
  ghost predicate IsRun(tr: Trace) {
    tr.Then? ==> IsRun(tr.prev) && Enabled(End(tr.prev), tr.a)
  }

  // ---- the inductive invariant ----

  // A process sits on the canonical file of its manifest: a name cannot be
  // unlinked, hence not rebound, while somebody has its file open.
  ghost predicate Bound(s: State, pc: Pc) {
    && (HasSlot(pc.stage) ==> pc.m in s.names && s.names[pc.m] == pc.f)
    && (pc.stage.Comparing? ==> pc.again == pc.f)
  }

  ghost predicate PendingOk(s: State, pc: Pc) {
    && (HasSlot(pc.stage) && pc.f in s.pending ==> pc.stage.Unlocking? || pc.stage.Marked? || pc.stage.Dropped?)
    && (s.platform.Windows? && pc.out.clean && (pc.stage.Marked? || pc.stage.Dropped?) ==> pc.f in s.pending)
    && (s.platform.Windows? && pc.out.clean && pc.stage.Closed? && pc.m in s.names ==>
          s.names[pc.m] == pc.f && pc.f in s.pending)
    && (s.platform.Posix? && pc.stage.Closed? ==> pc.m in s.names && s.names[pc.m] == pc.f)
  }

  ghost predicate PcOk(s: State, p: Proc, pc: Pc) {
    && (s.guard == Some(p) <==> InGuard(pc.stage))
    && (HasLock(pc.stage) ==> pc.f in s.locks && s.locks[pc.f] == p)
    && Bound(s, pc)
    && PendingOk(s, pc)
    && BlindOk(pc) && (pc.out.blind ==> !s.log.sighted)
  }

  // A process is blind only after a look at the name failed, and says so at the end.
  ghost predicate BlindOk(pc: Pc) {
    && (pc.out.blind ==> (PastCompare(pc.stage) && !pc.out.clean) || pc.stage.Leaving?)
    && (pc.out.why.SlotReplaced? <==> pc.stage.Leaving? && pc.out.blind)
  }

  predicate PastCompare(g: Stage) {
    g.Compared? || g.Marked? || g.Dropped? || g.Closed?
  }

  ghost predicate NamesOk(s: State) {
    && (forall m :: m in s.names ==> s.names[m].slot == m && s.names[m].serial < s.next)
    && (forall f :: f in s.pending ==> f.serial < s.next)
    && (s.platform.Posix? ==> s.pending == {})
  }

  ghost predicate Inv(s: State) {
    && (forall p :: p in s.pcs ==> PcOk(s, p, s.pcs[p]))
    && (s.guard.Some? ==> s.guard.value in s.pcs)
    && NamesOk(s)
    && (s.log.replaced <==> s.log.blinded) && (s.log.blinded ==> !s.log.sighted)
  }

  lemma SweepKeepsInv(s: State)
    requires Inv(s)
    ensures Inv(Sweep(s))
  {
    var t := Sweep(s);
    forall p | p in t.pcs ensures PcOk(t, p, t.pcs[p]) {
      assert PcOk(s, p, s.pcs[p]);
      if HasSlot(s.pcs[p].stage) {
        assert HasOpen(s.pcs[p], s.pcs[p].f);
      }
    }
  }

  // What every other process may rely on when p moves.
  ghost predicate Local(s: State, t: State, p: Proc) {
    && t.platform == s.platform && (t.log.sighted ==> s.log.sighted)
    && p in t.pcs && t.pcs == s.pcs[p := t.pcs[p]]
    && (t.guard == s.guard || ((s.guard.None? || s.guard == Some(p)) && (t.guard.None? || t.guard == Some(p))))
    && (forall m :: m in s.names ==> m in t.names && t.names[m] == s.names[m])
    && (t.names.Keys != s.names.Keys ==> s.guard == Some(p))
    && s.pending <= t.pending
    && (forall q :: q in s.pcs && q != p && HasSlot(s.pcs[q].stage) && s.pcs[q].f in t.pending - s.pending ==>
          s.pcs[q].stage.Unlocking?)
    && (forall f :: f in s.locks && s.locks[f] != p ==> f in t.locks && t.locks[f] == s.locks[f])
  }

  lemma LocalKeepsInv(s: State, t: State, p: Proc)
    requires Inv(s) && Local(s, t, p)
    requires PcOk(t, p, t.pcs[p])
    requires NamesOk(t) && (t.log.replaced <==> t.log.blinded) && (t.log.blinded ==> !t.log.sighted)
    ensures Inv(t)
  {
    forall q | q in t.pcs ensures PcOk(t, q, t.pcs[q]) {
      if q != p {
        assert PcOk(s, q, s.pcs[q]);
      }
    }
    if t.guard.Some? && t.guard.value != p {
      assert s.guard == Some(t.guard.value);
    }
  }

  // The calls that look at the canonical name, failing.
  predicate Blinding(s: State, a: Action) {
    || (a.ReopenName? && !a.fault.Fine?)
    || (a.CompareIdentity? && a.fault.Fails?)
    || (a.ReadBack? && a.fault.Fails? && s.platform.Posix? && At(s, a.p).out.clean)
  }

  // Two processes never sit on one locked file.
  lemma OneHolder(s: State, p: Proc, q: Proc)
    requires Inv(s) && p in s.pcs && q in s.pcs && p != q
    requires HasLock(s.pcs[p].stage) && s.pcs[q].f == s.pcs[p].f
    ensures !HasLock(s.pcs[q].stage)
  {
    assert PcOk(s, p, s.pcs[p]) && PcOk(s, q, s.pcs[q]);
  }

  // The retained handle is marked while its owner holds both the guard and the
  // byte lock, so the only other handles on it belong to processes that have
  // dropped their lock and not yet closed.
  lemma MarkIsLocal(s: State, p: Proc, fault: Fault)
    requires Inv(s) && p in s.pcs && s.pcs[p].stage.Compared?
    ensures Local(s, DoMarkDelete(s, p, fault), p)
  {
    var t := DoMarkDelete(s, p, fault);
    assert PcOk(s, p, s.pcs[p]);
    forall q | q in s.pcs && q != p && HasSlot(s.pcs[q].stage) && s.pcs[q].f in t.pending - s.pending
      ensures s.pcs[q].stage.Unlocking?
    {
      assert PcOk(s, q, s.pcs[q]);
      OneHolder(s, p, q);
    }
  }

  lemma TakeGuardKeepsInv(s: State, p: Proc, m: Manifest, fault: Fault)
    requires Inv(s) && At(s, p).stage.Idle?
    ensures Inv(DoTakeGuard(s, p, m, fault))
  {
    assert p in s.pcs ==> PcOk(s, p, s.pcs[p]);
    if fault.Fine? && s.guard.None? { LocalKeepsInv(s, DoTakeGuard(s, p, m, fault), p); }
  }

  lemma CreateKeepsInv(s: State, p: Proc)
    requires Inv(s) && p in s.pcs && s.pcs[p].stage.Guarded? && s.pcs[p].m !in s.names
    ensures Inv(Create(s, s.pcs[p].m))
  {
    assert PcOk(s, p, s.pcs[p]);
    var t := Create(s, s.pcs[p].m);
    assert t.pcs == s.pcs[p := t.pcs[p]];
    LocalKeepsInv(s, t, p);
  }

  lemma OpenExistingKeepsInv(s: State, p: Proc, fault: Fault)
    requires Inv(s) && p in s.pcs && s.pcs[p].stage.Guarded? && s.pcs[p].m in s.names
    ensures Inv(OpenExisting(s, p, fault))
  {
    assert PcOk(s, p, s.pcs[p]);
    LocalKeepsInv(s, OpenExisting(s, p, fault), p);
  }

  lemma OpenSlotKeepsInv(s: State, p: Proc, fault: Fault)
    requires Inv(s) && p in s.pcs && s.pcs[p].stage.Guarded?
    ensures Inv(DoOpenSlot(s, p, fault))
  {
    if fault.Fails? {
      assert PcOk(s, p, s.pcs[p]);
      LocalKeepsInv(s, Turn(s, p), p);
    } else if s.pcs[p].m in s.names {
      OpenExistingKeepsInv(s, p, fault);
    } else {
      CreateKeepsInv(s, p);
      OpenExistingKeepsInv(Create(s, s.pcs[p].m), p, fault);
    }
  }

  lemma LockSlotKeepsInv(s: State, p: Proc, fault: Fault)
    requires Inv(s) && p in s.pcs && s.pcs[p].stage.Opened?
    ensures Inv(DoLockSlot(s, p, fault))
  {
    assert PcOk(s, p, s.pcs[p]);
    LocalKeepsInv(s, DoLockSlot(s, p, fault), p);
  }

  lemma CloseRefusedKeepsInv(s: State, p: Proc)
    requires Inv(s) && p in s.pcs && s.pcs[p].stage.Refused?
    ensures Inv(DoCloseRefused(s, p))
  {
    assert PcOk(s, p, s.pcs[p]);
    LocalKeepsInv(s, DoCloseRefused(s, p), p);
  }

  lemma ReturnLeaseKeepsInv(s: State, p: Proc, fault: Fault)
    requires Inv(s) && p in s.pcs && s.pcs[p].stage.Locked?
    ensures Inv(DoReturnLease(s, p, fault))
  {
    assert PcOk(s, p, s.pcs[p]);
    LocalKeepsInv(s, DoReturnLease(s, p, fault), p);
  }

  lemma UnlockKeepsInv(s: State, p: Proc, fault: Fault)
    requires Inv(s) && p in s.pcs && (s.pcs[p].stage.Held? || s.pcs[p].stage.Retreating?)
    ensures Inv(DoUnlock(s, p, fault))
  {
    assert PcOk(s, p, s.pcs[p]);
    LocalKeepsInv(s, DoUnlock(s, p, fault), p);
  }

  lemma CloseUnlockedKeepsInv(s: State, p: Proc)
    requires Inv(s) && p in s.pcs && s.pcs[p].stage.Unlocking?
    ensures Inv(DoCloseUnlocked(s, p))
  {
    assert PcOk(s, p, s.pcs[p]);
    LocalKeepsInv(s, DoCloseUnlocked(s, p), p);
  }

  lemma SettleKeepsInv(s: State, p: Proc, fault: Fault)
    requires Inv(s) && p in s.pcs && s.pcs[p].stage.Held?
    ensures Inv(DoSettle(s, p, fault))
  {
    assert PcOk(s, p, s.pcs[p]);
    LocalKeepsInv(s, DoSettle(s, p, fault), p);
  }

  lemma ReopenNameKeepsInv(s: State, p: Proc, fault: Fault)
    requires Inv(s) && p in s.pcs && s.pcs[p].stage.Settling?
    ensures Inv(DoReopenName(s, p, fault))
  {
    assert PcOk(s, p, s.pcs[p]);
    LocalKeepsInv(s, DoReopenName(s, p, fault), p);
  }

  lemma CompareIdentityKeepsInv(s: State, p: Proc, fault: Fault)
    requires Inv(s) && p in s.pcs && s.pcs[p].stage.Comparing?
    ensures Inv(DoCompareIdentity(s, p, fault))
  {
    assert PcOk(s, p, s.pcs[p]);
    LocalKeepsInv(s, DoCompareIdentity(s, p, fault), p);
  }

  lemma MarkDeleteKeepsInv(s: State, p: Proc, fault: Fault)
    requires Inv(s) && p in s.pcs && s.pcs[p].stage.Compared?
    ensures Inv(DoMarkDelete(s, p, fault))
  {
    assert PcOk(s, p, s.pcs[p]);
    MarkIsLocal(s, p, fault);
    LocalKeepsInv(s, DoMarkDelete(s, p, fault), p);
  }

  lemma DropLockKeepsInv(s: State, p: Proc, fault: Fault)
    requires Inv(s) && p in s.pcs && s.pcs[p].stage.Marked?
    ensures Inv(DoDropLock(s, p, fault))
  {
    assert PcOk(s, p, s.pcs[p]);
    LocalKeepsInv(s, DoDropLock(s, p, fault), p);
  }

  lemma CloseSettledKeepsInv(s: State, p: Proc, fault: Fault)
    requires Inv(s) && p in s.pcs && s.pcs[p].stage.Dropped?
    ensures Inv(DoCloseSettled(s, p, fault))
  {
    assert PcOk(s, p, s.pcs[p]);
    LocalKeepsInv(s, DoCloseSettled(s, p, fault), p);
  }

  lemma ReadBackKeepsInv(s: State, p: Proc, fault: Fault)
    requires Inv(s) && p in s.pcs && s.pcs[p].stage.Closed?
    ensures Inv(DoReadBack(s, p, fault))
  {
    assert PcOk(s, p, s.pcs[p]);
    LocalKeepsInv(s, DoReadBack(s, p, fault), p);
  }

  lemma LeaveKeepsInv(s: State, p: Proc, fault: Fault)
    requires Inv(s) && p in s.pcs && s.pcs[p].stage.Leaving?
    ensures Inv(DoLeave(s, p, fault))
  {
    assert PcOk(s, p, s.pcs[p]);
    LocalKeepsInv(s, DoLeave(s, p, fault), p);
  }

  lemma CrashKeepsInv(s: State, p: Proc)
    requires Inv(s) && p in s.pcs
    ensures Inv(DoCrash(s, p))
  {
    assert PcOk(s, p, s.pcs[p]);
    LocalKeepsInv(s, DoCrash(s, p), p);
  }

  lemma AcquireMoveKeepsInv(s: State, a: Action)
    requires Inv(s) && Enabled(s, a) && !Settlement(a)
    ensures Inv(AcquireMove(s, a))
  {
    match a {
      case TakeGuard(p, m, fault) => TakeGuardKeepsInv(s, p, m, fault);
      case OpenSlot(p, fault) => OpenSlotKeepsInv(s, p, fault);
      case LockSlot(p, fault) => LockSlotKeepsInv(s, p, fault);
      case CloseRefused(p) => CloseRefusedKeepsInv(s, p);
      case ReturnLease(p, fault) => ReturnLeaseKeepsInv(s, p, fault);
      case Unlock(p, fault) => UnlockKeepsInv(s, p, fault);
      case CloseUnlocked(p) => CloseUnlockedKeepsInv(s, p);
      case Crash(p) => CrashKeepsInv(s, p);
    }
  }

  lemma SettleMoveKeepsInv(s: State, a: Action)
    requires Inv(s) && Enabled(s, a) && Settlement(a)
    ensures Inv(SettleMove(s, a))
  {
    match a {
      case Settle(p, fault) => SettleKeepsInv(s, p, fault);
      case ReopenName(p, fault) => ReopenNameKeepsInv(s, p, fault);
      case CompareIdentity(p, fault) => CompareIdentityKeepsInv(s, p, fault);
      case MarkDelete(p, fault) => MarkDeleteKeepsInv(s, p, fault);
      case DropLock(p, fault) => DropLockKeepsInv(s, p, fault);
      case CloseSettled(p, fault) => CloseSettledKeepsInv(s, p, fault);
      case ReadBack(p, fault) => ReadBackKeepsInv(s, p, fault);
      case Leave(p, fault) => LeaveKeepsInv(s, p, fault);
    }
  }

  lemma StepKeepsInv(s: State, a: Action)
    requires Inv(s) && Enabled(s, a)
    ensures Inv(Step(s, a))
  {
    if Settlement(a) { SettleMoveKeepsInv(s, a); } else { AcquireMoveKeepsInv(s, a); }
    SweepKeepsInv(Move(s, a));
  }

  // ---- whole runs ----

  // Every state of a run has just been swept: a name marked for deletion is
  // still there only because somebody has its file open.
  ghost predicate PendingOpen(s: State) {
    forall m :: m in s.names && s.names[m] in s.pending ==> OpenSomewhere(s, s.names[m])
  }

  lemma SweepLeavesPendingOpen(s: State)
    ensures PendingOpen(Sweep(s))
  {
    var t := Sweep(s);
    forall m | m in t.names && t.names[m] in t.pending ensures OpenSomewhere(t, t.names[m]) {
      var q :| q in s.pcs && HasOpen(s.pcs[q], s.names[m]);
      assert HasOpen(t.pcs[q], t.names[m]);
    }
  }

  lemma {:induction false} RunKeepsInv(tr: Trace)
    requires IsRun(tr)
    ensures Inv(End(tr)) && PendingOpen(End(tr))
  {
    if tr.Then? {
      RunKeepsInv(tr.prev);
      StepKeepsInv(End(tr.prev), tr.a);
      SweepLeavesPendingOpen(Move(End(tr.prev), tr.a));
    }
  }

  ghost predicate Reachable(s: State) {
    exists tr :: IsRun(tr) && s == End(tr)
  }

  lemma ReachableInv(s: State)
    requires Reachable(s)
    ensures Inv(s) && PendingOpen(s)
  {
    var tr :| IsRun(tr) && s == End(tr);
    RunKeepsInv(tr);
  }

  lemma HolderIs(s: State, p: Proc)
    requires Inv(s) && p in s.pcs && HasLock(s.pcs[p].stage)
    ensures var m := s.pcs[p].m; m in s.names && s.names[m] in s.locks && s.locks[s.names[m]] == p
  {
    assert PcOk(s, p, s.pcs[p]);
  }

  /** At most one process holds the lease of a manifest. */
  lemma MutualExclusion(s: State, p: Proc, q: Proc)
    requires Reachable(s)
    requires OwnsLease(At(s, p).stage) && OwnsLease(At(s, q).stage) && At(s, p).m == At(s, q).m
    ensures p == q
  {
    ReachableInv(s);
    HolderIs(s, p);
    HolderIs(s, q);
  }

  /** A held lease sits on the file its canonical name denotes, and that name can
      be opened: deleting and recreating the slot never splits a lease. */
  lemma LeaseOwnsItsName(s: State, p: Proc)
    requires Reachable(s) && OwnsLease(At(s, p).stage) && !At(s, p).stage.Marked?
    ensures Openable(s, At(s, p).m) && s.names[At(s, p).m] == At(s, p).f
  {
    ReachableInv(s);
    assert PcOk(s, p, s.pcs[p]);
  }

  /** A replaced slot has been reported if and only if a settlement in which a look at the
      canonical name failed has returned. */
  lemma SlotReplacedExactly(s: State)
    requires Reachable(s)
    ensures s.log.replaced <==> s.log.blinded
  {
    ReachableInv(s);
  }

  /** One settlement: what it is about to return is a replaced slot exactly when it is blind. */
  lemma SettlementIsHonest(s: State, p: Proc)
    requires Reachable(s) && At(s, p).stage.Leaving?
    ensures At(s, p).out.why.SlotReplaced? <==> At(s, p).out.blind
  {
    ReachableInv(s);
    assert PcOk(s, p, s.pcs[p]);
  }

  /** Without such a failure no run of cooperating processes reports a replaced slot. */
  lemma NeverSlotReplaced(tr: Trace)
    requires IsRun(tr) && Sighted(tr)
    ensures !End(tr).log.replaced
  {
    RunKeepsInv(tr);
    SightedExactly(tr);
  }

  // No look at a canonical name failed on the way.
  ghost predicate Sighted(tr: Trace) {
    tr.Then? ==> Sighted(tr.prev) && !Blinding(End(tr.prev), tr.a)
  }

  lemma {:induction false} SightedExactly(tr: Trace)
    requires IsRun(tr)
    ensures End(tr).log.sighted <==> Sighted(tr)
  {
    if tr.Then? {
      SightedExactly(tr.prev);
      RunKeepsInv(tr.prev);
      StepSighted(End(tr.prev), tr.a);
    }
  }

  lemma StepSighted(s: State, a: Action)
    requires Inv(s) && Enabled(s, a)
    ensures Step(s, a).log.sighted <==> s.log.sighted && !Blinding(s, a)
  {
    if Settlement(a) { SettleSighted(s, a); } else { AcquireSighted(s, a); }
  }

  lemma AcquireSighted(s: State, a: Action)
    requires !Settlement(a)
    ensures AcquireMove(s, a).log.sighted == s.log.sighted
  {
  }

  lemma SettleSighted(s: State, a: Action)
    requires Inv(s) && Enabled(s, a) && Settlement(a)
    ensures SettleMove(s, a).log.sighted <==> s.log.sighted && !Blinding(s, a)
  {
    assert PcOk(s, a.p, s.pcs[a.p]);
  }

  /** And a failure is never swallowed: it makes its process blind ... */
  lemma FailureBlinds(s: State, a: Action)
    requires Inv(s) && Enabled(s, a) && Blinding(s, a)
    ensures At(Step(s, a), a.p).out.blind
  {
  }

  /** ... and the process stays blind until its settlement returns and reports a replaced slot,
      unless it crashes first. */
  lemma BlindnessIsReported(s: State, a: Action)
    requires Inv(s) && Enabled(s, a) && !a.Crash? && At(s, a.p).out.blind
    ensures if a.Leave? then Step(s, a).log.replaced else At(Step(s, a), a.p).out.blind
  {
    assert PcOk(s, a.p, s.pcs[a.p]);
  }

  /** A slot handle without the byte lock belongs to the holder of the guard, or to a process
      between unlocking and closing outside the guard: in unlock, or in an acquire that could not
      give the guard back cleanly. */
  lemma UnlockedHandles(s: State, p: Proc, f: FileId)
    requires Reachable(s) && HasOpen(At(s, p), f)
    requires !(f in s.locks && s.locks[f] == p)
    ensures s.guard == Some(p) || At(s, p).stage.Unlocking?
  {
    ReachableInv(s);
    assert PcOk(s, p, s.pcs[p]);
  }

  /** After a settlement whose calls all succeeded, the Windows read-back finds the
      slot gone exactly when no process is stalled between unlock and close on it;
      otherwise it reports a clean-up failure. */
  lemma ReadBackExact(s: State, p: Proc)
    requires Reachable(s) && s.platform.Windows?
    requires At(s, p).stage.Closed? && At(s, p).out.clean
    ensures Verdict(s, At(s, p)) == Settled <==>
              !exists q :: q in s.pcs && s.pcs[q].stage.Unlocking? && s.pcs[q].m == At(s, p).m
    ensures Verdict(s, At(s, p)) in {Settled, Cleanup}
  {
    ReachableInv(s);
    var pc := At(s, p);
    assert PcOk(s, p, pc);
    if q :| q in s.pcs && s.pcs[q].stage.Unlocking? && s.pcs[q].m == pc.m {
      assert PcOk(s, q, s.pcs[q]);
    }
    if pc.m in s.names {
      var q :| q in s.pcs && HasOpen(s.pcs[q], s.names[pc.m]);
      assert PcOk(s, q, s.pcs[q]);
    }
  }

  // ---- a settlement whose calls all worked ----

  // Since p last began a settlement it took only settlement calls, and all of them worked.
  predicate Flawless(tr: Trace, p: Proc) {
    match tr
    case Start(_) => false
    case Then(prev, a) =>
      if a.p != p then Flawless(prev, p)
      else Settlement(a) && a.fault.Fine? && (a.Settle? || Flawless(prev, p))
  }

  lemma AcquireStays(s: State, a: Action, p: Proc)
    requires Enabled(s, a) && !Settlement(a) && a.p != p
    ensures At(AcquireMove(s, a), p) == At(s, p)
  {
  }

  lemma SettleStays(s: State, a: Action, p: Proc)
    requires Enabled(s, a) && Settlement(a) && a.p != p
    ensures At(SettleMove(s, a), p) == At(s, p)
  {
  }

  lemma OthersStay(s: State, a: Action, p: Proc)
    requires Enabled(s, a) && a.p != p
    ensures At(Step(s, a), p) == At(s, p)
  {
    assert At(Move(s, a), p) == At(s, p) by {
      if Settlement(a) { SettleStays(s, a, p); } else { AcquireStays(s, a, p); }
    }
  }

  // A settlement call that works finds nothing wrong.
  lemma FineStaysClean(s: State, a: Action)
    requires Inv(s) && Enabled(s, a) && Settlement(a) && a.fault.Fine?
    requires PastCompare(At(s, a.p).stage) ==> At(s, a.p).out.clean
    ensures PastCompare(At(Step(s, a), a.p).stage) ==> At(Step(s, a), a.p).out.clean
  {
    assert PcOk(s, a.p, s.pcs[a.p]);
  }

  lemma {:induction false} FlawlessIsClean(tr: Trace, p: Proc)
    requires IsRun(tr) && Flawless(tr, p)
    ensures PastCompare(At(End(tr), p).stage) ==> At(End(tr), p).out.clean
  {
    if tr.a.p != p {
      FlawlessIsClean(tr.prev, p);
      OthersStay(End(tr.prev), tr.a, p);
    } else {
      RunKeepsInv(tr.prev);
      if !tr.a.Settle? { FlawlessIsClean(tr.prev, p); }
      FineStaysClean(End(tr.prev), tr.a);
    }
  }

  // A process is stalled between unlocking and closing on the slot of m.
  ghost predicate Stalled(s: State, m: Manifest) {
    exists q :: q in s.pcs && s.pcs[q].stage.Unlocking? && s.pcs[q].m == m
  }

  // What such a settlement returns.
  function Expected(s: State, stalled: bool): Report {
    if s.platform.Windows? && stalled then Cleanup else Settled
  }

  lemma CleanReadBack(s: State, p: Proc)
    requires Reachable(s) && At(s, p).stage.Closed? && At(s, p).out.clean
    ensures var t := DoReadBack(s, p, Fine);
            && At(t, p).stage.Leaving? && At(t, p).out.why == Expected(s, Stalled(s, At(s, p).m))
            && t.log == s.log
  {
    if s.platform.Windows? {
      ReadBackExact(s, p);
    } else {
      ReachableInv(s);
      assert PcOk(s, p, At(s, p));
    }
  }

  // The unlinking after a call changes neither a process nor the log nor the guard.
  lemma LastSteps(s: State, p: Proc)
    ensures At(s, p).stage.Closed? ==> Step(s, ReadBack(p, Fine)) == Sweep(DoReadBack(s, p, Fine))
    ensures At(s, p).stage.Leaving? ==> Step(s, Leave(p, Fine)) == Sweep(DoLeave(s, p, Fine))
    ensures At(Sweep(s), p) == At(s, p) && Sweep(s).log == s.log && Sweep(s).guard == s.guard
  {
  }

  // What such a settlement is about to return, and what its return leaves.
  ghost predicate Returns(s: State, t: State, p: Proc) {
    At(t, p).stage.Leaving? && At(t, p).out.why == Expected(s, Stalled(s, At(s, p).m)) && t.log == s.log
  }

  ghost predicate Returned(s: State, t: State, p: Proc) {
    && t.guard.None? && At(t, p).stage.Idle? && t.log.replaced == s.log.replaced
    && t.log.spoiled == (s.log.spoiled || (s.platform.Windows? && Stalled(s, At(s, p).m)))
  }

  lemma FlawlessReads(tr: Trace, p: Proc)
    requires IsRun(tr) && Flawless(tr, p) && At(End(tr), p).stage.Closed?
    ensures Returns(End(tr), Step(End(tr), ReadBack(p, Fine)), p)
  {
    var s := End(tr);
    FlawlessIsClean(tr, p);
    CleanReadBack(s, p);
    LastSteps(s, p);
    LastSteps(DoReadBack(s, p, Fine), p);
  }

  lemma ReturnLeaves(s: State, t: State, p: Proc)
    requires Returns(s, t, p)
    ensures Returned(s, Step(t, Leave(p, Fine)), p)
  {
    assert Returned(s, DoLeave(t, p, Fine), p);
    LastSteps(t, p);
    LastSteps(DoLeave(t, p, Fine), p);
  }

  /** A settlement all of whose calls worked returns success, on either platform: only on
      Windows, and only while an unlock is stalled on its slot, it returns a clean-up failure
      instead. It never returns a replaced slot. */
  lemma FlawlessSettles(tr: Trace, p: Proc)
    requires IsRun(tr) && Flawless(tr, p) && At(End(tr), p).stage.Closed?
    ensures var read := Step(End(tr), ReadBack(p, Fine));
            Returns(End(tr), read, p) && Returned(End(tr), Step(read, Leave(p, Fine)), p)
  {
    FlawlessReads(tr, p);
    ReturnLeaves(End(tr), Step(End(tr), ReadBack(p, Fine)), p);
  }

  /** And a failed call is never swallowed: it spoils its settlement, a spoiled one stays so, and
      at the end it does not return success.  Marking for deletion is a call on Windows only. */
  lemma FlawIsReported(s: State, a: Action)
    requires Inv(s) && Enabled(s, a) && Settlement(a) && !a.Settle? && !a.Leave?
    requires !a.fault.Fine? || (PastCompare(At(s, a.p).stage) && !At(s, a.p).out.clean)
    requires !(a.MarkDelete? && s.platform.Posix? && At(s, a.p).out.clean)
    ensures var pc := At(Step(s, a), a.p);
            if a.ReadBack? then pc.stage.Leaving? && pc.out.why != Settled
            else PastCompare(pc.stage) && !pc.out.clean
  {
    assert PcOk(s, a.p, s.pcs[a.p]);
  }

  // ---- the stalled unlock ----

  // At most f is marked for deletion, and process 0 has it open.
  ghost predicate Quiet(s: State, f: FileId) {
    s.pending == {} || (s.pending == {f} && 0 in s.pcs && HasOpen(s.pcs[0], f))
  }

  lemma SweepIdle(s: State, f: FileId)
    requires Quiet(s, f)
    ensures Sweep(s) == s
  {
    if s.pending == {f} {
      assert OpenSomewhere(s, f);
    }
    assert Sweep(s).names == s.names;
  }

  predicate Faultless(a: Action) {
    a.CloseRefused? || a.CloseUnlocked? || (!a.Crash? && a.fault.Fine?)
  }

  ghost predicate FaultlessRun(tr: Trace) {
    tr.Then? ==> FaultlessRun(tr.prev) && Faultless(tr.a)
  }

  // One more action, closing no last handle of a file marked for deletion.
  lemma Act(tr: Trace, a: Action, f: FileId) returns (more: Trace)
    requires IsRun(tr) && Enabled(End(tr), a) && Quiet(Move(End(tr), a), f)
    ensures IsRun(more) && End(more) == Move(End(tr), a)
    ensures FaultlessRun(tr) && Faultless(a) ==> FaultlessRun(more)
    ensures (Sighted(more) ==> Sighted(tr)) && more == Then(tr, a)
  {
    SweepIdle(Move(End(tr), a), f);
    more := Then(tr, a);
  }

  // One slot, one or two processes: what a witness run needs to know of a state.
  ghost predicate Shows(s: State, m: Manifest, f: FileId, doomed: bool, guard: Option<Proc>, lock: Option<Proc>,
                        p: Proc, pc: Pc) {
    && s.guard == guard && s.pending == (if doomed then {f} else {})
    && (if m in s.names then s.names[m] == f else f == File(m, s.next))
    && (if lock.Some? then f in s.locks && s.locks[f] == lock.value else f !in s.locks)
    && At(s, p) == pc
  }

  function Stands(g: Stage, m: Manifest, f: FileId): Pc {
    REST.(stage := g, m := m, f := f)
  }

  function Ends(g: Stage, m: Manifest, f: FileId): Pc {
    Pc(g, m, f, f, Result(true, false, Settled))
  }

  // The run goes on without a fault, and everybody but p stays put.
  ghost predicate Continues(tr: Trace, more: Trace, p: Proc, q: Proc) {
    && IsRun(more) && (FaultlessRun(tr) ==> FaultlessRun(more)) && (Sighted(more) ==> Sighted(tr))
    && End(more).platform == End(tr).platform && (q != p ==> At(End(more), q) == At(End(tr), q))
  }

  lemma PlayGuard(tr: Trace, m: Manifest, f: FileId, p: Proc, q: Proc) returns (more: Trace)
    requires IsRun(tr) && Shows(End(tr), m, f, false, None, None, p, REST)
    ensures Continues(tr, more, p, q)
            && Shows(End(more), m, f, false, Some(p), None, p, REST.(stage := Guarded, m := m))
  {
    more := Act(tr, TakeGuard(p, m, Fine), f);
  }

  lemma PlayOpen(tr: Trace, m: Manifest, f: FileId, p: Proc, q: Proc) returns (more: Trace)
    requires IsRun(tr) && Shows(End(tr), m, f, false, Some(p), None, p, REST.(stage := Guarded, m := m))
    ensures Continues(tr, more, p, q) && Shows(End(more), m, f, false, Some(p), None, p, Stands(Opened, m, f))
            && m in End(more).names
  {
    more := Act(tr, OpenSlot(p, Fine), f);
  }

  lemma PlayLock(tr: Trace, m: Manifest, f: FileId, p: Proc, q: Proc) returns (more: Trace)
    requires IsRun(tr) && Shows(End(tr), m, f, false, Some(p), None, p, Stands(Opened, m, f)) && m in End(tr).names
    ensures Continues(tr, more, p, q) && Shows(End(more), m, f, false, Some(p), Some(p), p, Stands(Locked, m, f))
            && m in End(more).names
  {
    more := Act(tr, LockSlot(p, Fine), f);
  }

  lemma PlayReturn(tr: Trace, m: Manifest, f: FileId, p: Proc, q: Proc) returns (more: Trace)
    requires IsRun(tr) && Shows(End(tr), m, f, false, Some(p), Some(p), p, Stands(Locked, m, f)) && m in End(tr).names
    ensures Continues(tr, more, p, q) && Shows(End(more), m, f, false, None, Some(p), p, Stands(Held, m, f))
            && m in End(more).names
  {
    more := Act(tr, ReturnLease(p, Fine), f);
  }

  // A whole acquire.
  lemma PlayAcquire(tr: Trace, m: Manifest, f: FileId, p: Proc, q: Proc) returns (more: Trace)
    requires IsRun(tr) && Shows(End(tr), m, f, false, None, None, p, REST)
    ensures Continues(tr, more, p, q) && Shows(End(more), m, f, false, None, Some(p), p, Stands(Held, m, f))
            && m in End(more).names
  {
    var a := PlayGuard(tr, m, f, p, q);
    var b := PlayOpen(a, m, f, p, q);
    var c := PlayLock(b, m, f, p, q);
    more := PlayReturn(c, m, f, p, q);
  }

  lemma PlayUnlock(tr: Trace, m: Manifest, f: FileId, p: Proc, q: Proc) returns (more: Trace)
    requires IsRun(tr) && Shows(End(tr), m, f, false, None, Some(p), p, Stands(Held, m, f)) && m in End(tr).names
    ensures Continues(tr, more, p, q) && Shows(End(more), m, f, false, None, None, p, Stands(Unlocking, m, f))
            && m in End(more).names
  {
    more := Act(tr, Unlock(p, Fine), f);
  }

  lemma PlaySettle(tr: Trace, m: Manifest, f: FileId, p: Proc, q: Proc) returns (more: Trace)
    requires IsRun(tr) && Shows(End(tr), m, f, false, None, Some(p), p, Stands(Held, m, f)) && m in End(tr).names
    ensures Continues(tr, more, p, q)
            && Shows(End(more), m, f, false, Some(p), Some(p), p, Stands(Settling, m, f)) && m in End(more).names
  {
    more := Act(tr, Settle(p, Fine), f);
  }

  lemma PlayReopen(tr: Trace, m: Manifest, f: FileId, p: Proc, q: Proc) returns (more: Trace)
    requires IsRun(tr) && Shows(End(tr), m, f, false, Some(p), Some(p), p, Stands(Settling, m, f)) && m in End(tr).names
    ensures Continues(tr, more, p, q) && m in End(more).names
    ensures Shows(End(more), m, f, false, Some(p), Some(p), p, Stands(Comparing, m, f).(again := f))
  {
    more := Act(tr, ReopenName(p, Fine), f);
  }

  lemma PlayCompare(tr: Trace, m: Manifest, f: FileId, p: Proc, q: Proc) returns (more: Trace)
    requires IsRun(tr) && Shows(End(tr), m, f, false, Some(p), Some(p), p, Stands(Comparing, m, f).(again := f))
             && m in End(tr).names
    ensures Continues(tr, more, p, q) && Shows(End(more), m, f, false, Some(p), Some(p), p, Ends(Compared, m, f))
            && m in End(more).names
  {
    more := Act(tr, CompareIdentity(p, Fine), f);
  }

  // Process 1 marks the slot for deletion while process 0 has it open.
  lemma PlayMark(tr: Trace, m: Manifest, f: FileId) returns (more: Trace)
    requires IsRun(tr) && End(tr).platform.Windows? && At(End(tr), 0) == Stands(Unlocking, m, f)
    requires Shows(End(tr), m, f, false, Some(1), Some(1), 1, Ends(Compared, m, f)) && m in End(tr).names
    ensures Continues(tr, more, 1, 0) && Shows(End(more), m, f, true, Some(1), Some(1), 1, Ends(Marked, m, f))
            && m in End(more).names
  {
    more := Act(tr, MarkDelete(1, Fine), f);
  }

  lemma PlayDrop(tr: Trace, m: Manifest, f: FileId) returns (more: Trace)
    requires IsRun(tr) && End(tr).platform.Windows? && At(End(tr), 0) == Stands(Unlocking, m, f)
    requires Shows(End(tr), m, f, true, Some(1), Some(1), 1, Ends(Marked, m, f)) && m in End(tr).names
    ensures Continues(tr, more, 1, 0) && Shows(End(more), m, f, true, Some(1), None, 1, Ends(Dropped, m, f))
            && m in End(more).names
  {
    more := Act(tr, DropLock(1, Fine), f);
  }

  lemma PlayClose(tr: Trace, m: Manifest, f: FileId) returns (more: Trace)
    requires IsRun(tr) && End(tr).platform.Windows? && At(End(tr), 0) == Stands(Unlocking, m, f)
    requires Shows(End(tr), m, f, true, Some(1), None, 1, Ends(Dropped, m, f)) && m in End(tr).names
    ensures Continues(tr, more, 1, 0) && Shows(End(more), m, f, true, Some(1), None, 1, Ends(Closed, m, f))
            && m in End(more).names
  {
    more := Act(tr, CloseSettled(1, Fine), f);
  }

  // The name is still there.
  lemma PlayReadBack(tr: Trace, m: Manifest, f: FileId) returns (more: Trace)
    requires IsRun(tr) && End(tr).platform.Windows? && At(End(tr), 0) == Stands(Unlocking, m, f)
    requires Shows(End(tr), m, f, true, Some(1), None, 1, Ends(Closed, m, f)) && m in End(tr).names
    ensures Continues(tr, more, 1, 0)
    ensures Shows(End(more), m, f, true, Some(1), None, 1, Pc(Leaving, m, f, f, Result(true, false, Cleanup)))
  {
    more := Act(tr, ReadBack(1, Fine), f);
  }

  lemma PlayLeave(tr: Trace, m: Manifest, f: FileId) returns (more: Trace)
    requires IsRun(tr) && FaultlessRun(tr) && At(End(tr), 0) == Stands(Unlocking, m, f)
    requires Shows(End(tr), m, f, true, Some(1), None, 1, Pc(Leaving, m, f, f, Result(true, false, Cleanup)))
    ensures IsRun(more) && FaultlessRun(more) && End(more).log.spoiled && more == Then(tr, Leave(1, Fine))
  {
    more := Act(tr, Leave(1, Fine), f);
  }

  /** Two cooperating processes and no failing call: one is stalled between the two
      calls of unlock, the other's settlement reports a clean-up failure. */
  lemma StalledUnlockSpoilsSettlement(m: Manifest) returns (tr: Trace)
    ensures IsRun(tr) && FaultlessRun(tr) && End(tr).log.spoiled
    ensures tr.Then? && tr.a == Leave(1, Fine) && At(End(tr.prev), 1).out.why.Cleanup?
  {
    var f := File(m, 0);
    var a := PlayAcquire(Start(Windows), m, f, 0, 1);
    var b := PlayUnlock(a, m, f, 0, 1);
    var c := PlayAcquire(b, m, f, 1, 0);
    var d := PlaySettle(c, m, f, 1, 0);
    var e := PlayReopen(d, m, f, 1, 0);
    var g := PlayCompare(e, m, f, 1, 0);
    tr := PlaySpoil(g, m, f);
  }

  lemma PlaySpoil(tr: Trace, m: Manifest, f: FileId) returns (more: Trace)
    requires IsRun(tr) && FaultlessRun(tr) && End(tr).platform.Windows? && At(End(tr), 0) == Stands(Unlocking, m, f)
    requires Shows(End(tr), m, f, false, Some(1), Some(1), 1, Ends(Compared, m, f)) && m in End(tr).names
    ensures IsRun(more) && FaultlessRun(more) && End(more).log.spoiled
    ensures more.Then? && more.a == Leave(1, Fine) && At(End(more.prev), 1).out.why.Cleanup?
  {
    var a := PlayMark(tr, m, f);
    var b := PlayDrop(a, m, f);
    var c := PlayClose(b, m, f);
    var d := PlayReadBack(c, m, f);
    more := PlayLeave(d, m, f);
  }

  /** A single process whose second look at its own, untouched slot fails reports it as replaced. */
  lemma FailedLookReportsReplaced(m: Manifest) returns (tr: Trace)
    ensures IsRun(tr) && End(tr).log.replaced && !Sighted(tr)
  {
    var f := File(m, 0);
    var a := PlayAcquire(Start(Posix), m, f, 0, 1);
    var b := PlaySettle(a, m, f, 0, 1);
    var c := Act(b, ReopenName(0, Fails), f);
    assert !Sighted(c) by {
      RunKeepsInv(c);
      SightedExactly(c);
    }
    tr := PlayBlind(c, f);
  }

  ghost predicate Blind(tr: Trace, f: FileId, g: Stage) {
    && IsRun(tr) && End(tr).platform.Posix? && End(tr).pending == {} && !Sighted(tr)
    && var pc := At(End(tr), 0); pc.stage == g && !pc.out.clean && pc.out.blind && pc.f == f
  }

  lemma PlayBlindMark(tr: Trace, f: FileId) returns (more: Trace)
    requires Blind(tr, f, Compared)
    ensures Blind(more, f, Marked)
  {
    more := Act(tr, MarkDelete(0, Fine), f);
  }

  lemma PlayBlindClose(tr: Trace, f: FileId) returns (more: Trace)
    requires Blind(tr, f, Marked)
    ensures Blind(more, f, Closed)
  {
    var a := Act(tr, DropLock(0, Fine), f);
    more := Act(a, CloseSettled(0, Fine), f);
  }

  lemma PlayBlindReadBack(tr: Trace, f: FileId) returns (more: Trace)
    requires Blind(tr, f, Closed)
    ensures Blind(more, f, Leaving) && At(End(more), 0).out.why.SlotReplaced?
  {
    more := Act(tr, ReadBack(0, Fine), f);
  }

  lemma PlayBlindLeave(tr: Trace, f: FileId) returns (more: Trace)
    requires Blind(tr, f, Leaving) && At(End(tr), 0).out.why.SlotReplaced?
    ensures IsRun(more) && End(more).log.replaced && !Sighted(more)
  {
    more := Act(tr, Leave(0, Fine), f);
  }

  lemma PlayBlind(tr: Trace, f: FileId) returns (more: Trace)
    requires Blind(tr, f, Compared)
    ensures IsRun(more) && End(more).log.replaced && !Sighted(more)
  {
    var a := PlayBlindMark(tr, f);
    var b := PlayBlindClose(a, f);
    var c := PlayBlindReadBack(b, f);
    more := PlayBlindLeave(c, f);
  }
}
