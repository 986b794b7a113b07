/**
 What attach receipts pin: the snapshot a receipt names, the preimage a client write
 replaces, the postimage a commit records and the entry a rollback restores.

 A vetoed attach removes its receipt and then its snapshot after the lease is free, and a run
 writes its last receipt then.  Whenever no unsettled receipt of its own is out to keep others
 away (its receipt never landed, is removed already, or is concluded but not yet read back),
 such a step can take a newcomer's receipt or snapshot.  `Harmful` says exactly when;
 everything else here holds in every run without a harmful step, and a harmful step always
 breaks it.
 */
module AttachPins {
  import opened Wrappers
  import opened Attach

  // What is left of the run can still touch files that are no longer its own.
  predicate Trailing(g: Stage) { Late(g) || g.AVetoedSnap? || g.AOnlySnap? }

  predicate GoodAfter(r: Receipt) {
    r.after.Some? && r.after.value.entry == Http(r.endpoint) && r.after.value != r.before
  }

  // Admitted attach stages that will still write their receipt.
  predicate Unprepared(g: Stage) { g.AArchive? || g.AReady? || g.ALocked? || g.ASnapped? }

  // The run relies on its daemon's receipt staying as it is.
  predicate Engaging(g: Stage) { Unprepared(g) || g.RChecked? || Owning(g) }

  // The run relies on a receipt being there.
  predicate Counting(g: Stage) { g.RChecked? || Owning(g) }

  // The run relies on its snapshot.
  predicate NeedsSnap(g: Stage) { g.ASnapped? || g.RChecked? || Owning(g) }

  predicate PreimageHeld(g: Stage) { g.ALocked? || g.ASnapped? || g.APrepared? }
  predicate InRollback(g: Stage) { g.RChecked? || g.RPending? || g.RRestored? || g.RVerified? || g.RSettled? }

  // The run's own receipt, whatever the others do.
  ghost predicate OwnSide(s: State, pc: Pc) {
    && (Engaging(pc.stage) || Trailing(pc.stage) ==> NamedOk(s, pc.rec))
    && (PreimageHeld(pc.stage) ==> s.config == pc.rec.before && pc.rec.before.entry.Direct?)
    && (pc.stage.AVerified? || pc.stage.ASettled? || InRollback(pc.stage) ==> GoodAfter(pc.rec))
    && (Owning(pc.stage) ==> if InRollback(pc.stage) then pc.rec.phase.RollbackPending? else pc.rec.phase.Prepared?)
    && (pc.stage.RChecked? || pc.stage.RPending? || pc.stage.RRestored? ==> pc.seen == pc.rec.before)
    && (pc.stage.RVerified? || pc.stage.RSettled? ==> pc.seen.entry == pc.rec.before.entry && pc.seen.entry.Direct?)
  }

  // A private leaf carries its operation's id, and ids are never reused.
  predicate NamedOk(s: State, r: Receipt) {
    r.id < s.next && (r.leaf.Op? ==> r.leaf.id == r.id)
  }

  // The run's receipt against its daemon's current one and the snapshot files.
  ghost predicate SharedSide(s: State, pc: Pc) {
    var r := SlotAt(s, pc.rec.leaf.d);
    && (NeedsSnap(pc.stage) ==> Intact(s, pc.rec))
    && (Owning(pc.stage) ==> r.Some? && r.value == pc.rec.(after := r.value.after))
    && (Unprepared(pc.stage) && r.Some? ==> r.value.phase.RolledBack? && r.value.id != pc.rec.id && pc.rec.leaf.Op?)
    && (pc.stage.RChecked? ==> r.Some? && r.value.phase.Committed?)
  }

  // The current receipt names an intact snapshot of its preimage; a committed or later
  // one also carries a verified postimage.
  ghost predicate Pinned(s: State, d: Daemon) {
    var r := SlotAt(s, d);
    r.Some? ==>
      && Intact(s, r.value) && NamedOk(s, r.value) && r.value.leaf.d == d
      && (r.value.phase.Committed? || r.value.phase.RollbackPending? || r.value.phase.RolledBack? ==>
            GoodAfter(r.value))
  }

  ghost predicate PcPin(s: State, p: Agent) {
    p in s.pcs ==> OwnSide(s, s.pcs[p]) && SharedSide(s, s.pcs[p])
  }

  ghost predicate Good(s: State) {
    Inv(s) && (forall p :: PcPin(s, p)) && (forall d :: Pinned(s, d))
  }

  // ---- exactly the harmful steps ----

  // Somebody relies on the receipt of daemon d as it is ...
  ghost predicate Engaged(s: State, d: Daemon) {
    exists p :: p in s.pcs && Engaging(s.pcs[p].stage) && s.pcs[p].rec.leaf.d == d
  }

  // ... or on there being one.
  ghost predicate Counted(s: State, d: Daemon) {
    exists p :: p in s.pcs && Counting(s.pcs[p].stage) && s.pcs[p].rec.leaf.d == d
  }

  // The snapshot file is named by a current receipt or needed by a run.
  ghost predicate Relied(s: State, l: Leaf) {
    || (SlotAt(s, l.d).Some? && SlotAt(s, l.d).value.leaf == l)
    || exists p :: p in s.pcs && NeedsSnap(s.pcs[p].stage) && s.pcs[p].rec.leaf == l
  }

  // Without the lease, p faces a receipt of another run that is not settled by a rollback.
  predicate Foreign(s: State, p: Agent) {
    s.locks.lease != Some(p) && Mine(s, p).Some? && Mine(s, p).value.owner != p && !Mine(s, p).value.phase.RolledBack?
  }

  // The step takes such a receipt away.
  ghost predicate Steals(s: State, a: Action) {
    !a.Outside? && Foreign(s, a.p) && SlotAt(Step(s, a), Of(s, a.p)) != Mine(s, a.p)
  }

  // The run writes a receipt that asks for recovery, with no unsettled one of its own out.
  predicate Overwrites(s: State, a: Action) {
    || (a.Fail? && Late(At(s, a.p).stage))
    || (a.CheckClean? && At(s, a.p).stage.ALostReceipt? && s.config != At(s, a.p).rec.before)
  }

  predicate TakesReceipt(s: State, a: Action) {
    a.CleanReceipt? && At(s, a.p).stage.ALostRemove?
  }

  // A late step takes a snapshot that is in use, removes a receipt that somebody needs or
  // that is another run's, or replaces one, or brings back a receipt whose snapshot is gone.
  ghost predicate Harmful(s: State, a: Action) {
    && !a.Outside?
    && var pc := At(s, a.p);
       || (a.CleanSnap? && Relied(s, pc.rec.leaf))
       || (TakesReceipt(s, a) && (Counted(s, pc.rec.leaf.d) || Foreign(s, a.p)))
       || (Overwrites(s, a) && (Engaged(s, pc.rec.leaf.d) || Foreign(s, a.p) || !Intact(s, pc.rec)))
  }

  // ---- one step of one run ----

  // Nobody but p relies on daemon d's receipt.
  ghost predicate Alone(s: State, p: Agent, d: Daemon) {
    forall q :: q in s.pcs && q != p ==> !(Engaging(s.pcs[q].stage) && s.pcs[q].rec.leaf.d == d)
  }

  lemma EngagedIsAlone(s: State, p: Agent)
    requires Good(s) && p in s.pcs && Engaging(s.pcs[p].stage)
    ensures Alone(s, p, Of(s, p))
  {
    assert PcOk(s, p, s.pcs[p]) && PcPin(s, p);
    forall q | q in s.pcs && q != p ensures !(Engaging(s.pcs[q].stage) && s.pcs[q].rec.leaf.d == Of(s, p)) {
      assert PcOk(s, q, s.pcs[q]) && PcPin(s, q);
    }
  }

  // A run with the lease and a committed receipt in its daemon's slot is alone as well.
  lemma CommittedIsAlone(s: State, p: Agent, d: Daemon)
    requires Good(s) && s.locks.lease == Some(p) && SlotAt(s, d).Some?
             && SlotAt(s, d).value.phase.Committed?
    ensures Alone(s, p, d)
  {
    forall q | q in s.pcs && q != p ensures !(Engaging(s.pcs[q].stage) && s.pcs[q].rec.leaf.d == d) {
      assert PcOk(s, q, s.pcs[q]) && PcPin(s, q);
    }
  }

  // The snapshot files of every daemon but d.
  ghost predicate SameFiles(s: State, t: State, d: Daemon) {
    forall l: Leaf :: l.d != d ==>
      (l in s.files.snaps <==> l in t.files.snaps) && (l in s.files.snaps ==> t.files.snaps[l] == s.files.snaps[l])
  }

  // p moved: nothing of daemon d changed, or nobody else relied on it.
  ghost predicate PinLocal(s: State, t: State, p: Agent, d: Daemon) {
    && p in t.pcs && t.pcs == s.pcs[p := t.pcs[p]] && s.next <= t.next
    && (t.slots == s.slots || t.slots == s.slots[d := SlotAt(t, d)])
    && (t.config == s.config || s.locks.config.None? || s.locks.config == Some(p))
    && ((SlotAt(t, d) == SlotAt(s, d) && t.files.snaps == s.files.snaps) || (Alone(s, p, d) && SameFiles(s, t, d)))
  }

  lemma OtherKeepsPin(s: State, t: State, p: Agent, d: Daemon, q: Agent)
    requires Good(s) && PinLocal(s, t, p, d) && q in s.pcs && q != p
    ensures PcPin(t, q)
  {
    assert PcPin(s, q) && PcOk(s, q, s.pcs[q]) && t.pcs[q] == s.pcs[q];
  }

  lemma OtherKeepsPinned(s: State, t: State, p: Agent, d: Daemon, e: Daemon)
    requires Good(s) && PinLocal(s, t, p, d) && e != d
    ensures Pinned(t, e)
  {
    assert Pinned(s, e) && SlotAt(t, e) == SlotAt(s, e);
  }

  // A run that relies on nothing.
  lemma IdlePin(s: State, p: Agent)
    requires p in s.pcs ==> var g := s.pcs[p].stage; g.Idle? || g.AStart? || g.RStart? || g.MStart?
    ensures PcPin(s, p)
  {
  }

  lemma LocalKeepsGood(s: State, t: State, p: Agent, d: Daemon)
    requires Good(s) && Inv(t) && PinLocal(s, t, p, d) && PcPin(t, p) && Pinned(t, d)
    ensures Good(t)
  {
    forall q ensures PcPin(t, q) {
      if q in s.pcs && q != p { OtherKeepsPin(s, t, p, d, q); }
    }
    forall e ensures Pinned(t, e) {
      if e != d { OtherKeepsPinned(s, t, p, d, e); }
    }
  }

  lemma QuitKeepsGood(s: State, p: Agent)
    requires Good(s) && p in s.pcs
    ensures Good(Quit(s, p))
  {
    assert PcOk(s, p, s.pcs[p]) && PcPin(s, p) && Pinned(s, Of(s, p));
    IdlePin(Quit(s, p), p);
    QuitKeepsInv(s, p);
    LocalKeepsGood(s, Quit(s, p), p, Of(s, p));
  }

  lemma FailKeepsGood(s: State, p: Agent)
    requires Good(s) && p in s.pcs && Counting(s.pcs[p].stage)
    ensures Good(DoFail(s, p))
  {
    assert PcOk(s, p, s.pcs[p]) && PcPin(s, p) && Pinned(s, Of(s, p));
    EngagedIsAlone(s, p);
    IdlePin(DoFail(s, p), p);
    FailKeepsInv(s, p);
    LocalKeepsGood(s, DoFail(s, p), p, Of(s, p));
  }

  lemma AdmitKeepsGood(s: State, p: Agent, g: Stage, leaf: Leaf)
    requires Good(s) && p in s.pcs && s.pcs[p].stage.AStart?
    requires var r := Mine(s, p);
             if r.None? then g.AReady? && leaf == Base(Of(s, p))
             else r.value.phase.RolledBack? && g.AArchive? && leaf == Op(Of(s, p), s.next)
    ensures Good(Admit(s, p, g, leaf))
  {
    assert PcOk(s, p, s.pcs[p]) && PcPin(s, p) && Pinned(s, Of(s, p));
    AdmitKeepsInv(s, p, g, leaf);
    LocalKeepsGood(s, Admit(s, p, g, leaf), p, Of(s, p));
  }

  lemma ReadReceiptKeepsGood(s: State, p: Agent)
    requires Good(s) && p in s.pcs && s.pcs[p].stage.AStart?
    ensures Good(DoReadReceipt(s, p))
  {
    assert PcOk(s, p, s.pcs[p]) && PcPin(s, p) && Pinned(s, Of(s, p));
    var r := Mine(s, p);
    if r.None? {
      AdmitKeepsGood(s, p, AReady, Base(Of(s, p)));
    } else if r.value.phase.RolledBack? && Intact(s, r.value) && s.config.entry == r.value.before.entry {
      AdmitKeepsGood(s, p, AArchive, Op(Of(s, p), s.next));
    } else {
      QuitKeepsGood(s, p);
    }
  }

  lemma ReadyKeepsGood(s: State, p: Agent, h: map<Id, Receipt>)
    requires Good(s) && p in s.pcs && s.pcs[p].stage.AArchive?
    ensures Good(Stand(s.(files := s.files.(history := h)), p, AReady))
  {
    assert PcOk(s, p, s.pcs[p]) && PcPin(s, p) && Pinned(s, Of(s, p));
    FilesKeepInv(s, s.files.(history := h));
    ReadyKeepsInv(s.(files := s.files.(history := h)), p);
    LocalKeepsGood(s, Stand(s.(files := s.files.(history := h)), p, AReady), p, Of(s, p));
  }

  lemma ArchiveKeepsGood(s: State, p: Agent)
    requires Good(s) && p in s.pcs && s.pcs[p].stage.AArchive?
    ensures Good(DoArchive(s, p))
  {
    assert PcOk(s, p, s.pcs[p]) && PcPin(s, p) && Pinned(s, Of(s, p));
    var r, h := Mine(s, p), s.files.history;
    if r.None? || (r.value.id in h && h[r.value.id] != r.value) {
      QuitKeepsGood(s, p);
    } else if r.value.id in h {
      assert s.(files := s.files.(history := h)) == s;
      ReadyKeepsGood(s, p, h);
    } else {
      ReadyKeepsGood(s, p, h[r.value.id := r.value]);
    }
  }

  lemma LockConfigKeepsGood(s: State, p: Agent)
    requires Good(s) && p in s.pcs && s.pcs[p].stage.AReady?
    ensures Good(DoLockConfig(s, p))
  {
    assert PcOk(s, p, s.pcs[p]) && PcPin(s, p) && Pinned(s, Of(s, p));
    if s.locks.config.None? {
      if s.config == At(s, p).rec.before && s.config.entry.Direct? {
        LockConfigKeepsInv(s, p);
        LocalKeepsGood(s, DoLockConfig(s, p), p, Of(s, p));
      } else {
        QuitKeepsGood(s, p);
      }
    }
  }

  lemma SnapshotKeepsGood(s: State, p: Agent)
    requires Good(s) && p in s.pcs && s.pcs[p].stage.ALocked?
    ensures Good(DoSnapshot(s, p))
  {
    assert PcOk(s, p, s.pcs[p]) && PcPin(s, p) && Pinned(s, Of(s, p));
    EngagedIsAlone(s, p);
    SnapshotKeepsInv(s, p);
    LocalKeepsGood(s, DoSnapshot(s, p), p, Of(s, p));
  }

  lemma PrepareKeepsGood(s: State, p: Agent)
    requires Good(s) && p in s.pcs && s.pcs[p].stage.ASnapped?
    ensures Good(DoPrepare(s, p))
  {
    assert PcOk(s, p, s.pcs[p]) && PcPin(s, p) && Pinned(s, Of(s, p));
    EngagedIsAlone(s, p);
    PrepareKeepsInv(s, p);
    LocalKeepsGood(s, DoPrepare(s, p), p, Of(s, p));
  }

  lemma VetoKeepsGood(s: State, p: Agent)
    requires Good(s) && p in s.pcs && (s.pcs[p].stage.ALocked? || s.pcs[p].stage.ASnapped? || s.pcs[p].stage.APrepared?)
    ensures Good(DoVeto(s, p))
  {
    assert PcOk(s, p, s.pcs[p]) && PcPin(s, p) && Pinned(s, Of(s, p));
    if s.pcs[p].stage.ALocked? {
      QuitKeepsGood(s, p);
    } else {
      VetoKeepsInv(s, p);
      LocalKeepsGood(s, DoVeto(s, p), p, Of(s, p));
    }
  }

  lemma LoseKeepsGood(s: State, p: Agent, g: Stage)
    requires Good(s) && p in s.pcs
    requires (s.pcs[p].stage.ALocked? && g.AVetoedSnap?) || (s.pcs[p].stage.ASnapped? && g.AVetoedLost?)
    ensures Good(DoLose(s, p, g))
  {
    assert PcOk(s, p, s.pcs[p]) && PcPin(s, p) && Pinned(s, Of(s, p));
    LoseKeepsInv(s, p, g);
    LocalKeepsGood(s, DoLose(s, p, g), p, Of(s, p));
  }

  lemma LeaveVetoKeepsGood(s: State, p: Agent)
    requires Good(s) && p in s.pcs
    requires s.pcs[p].stage.AVetoedSnap? || s.pcs[p].stage.AVetoed? || s.pcs[p].stage.AVetoedLost?
    ensures Good(DoLeaveVeto(s, p))
  {
    assert PcOk(s, p, s.pcs[p]) && PcPin(s, p) && Pinned(s, Of(s, p));
    LeaveVetoKeepsInv(s, p);
    LocalKeepsGood(s, DoLeaveVeto(s, p), p, Of(s, p));
  }

  // The preimage is still there.
  lemma CheckPasses(s: State, p: Agent)
    requires Good(s) && p in s.pcs && (s.pcs[p].stage.ACleanReceipt? || s.pcs[p].stage.ALostReceipt?)
    requires s.config == s.pcs[p].rec.before
    ensures Good(DoCheckClean(s, p))
  {
    assert PcOk(s, p, s.pcs[p]) && PcPin(s, p) && Pinned(s, Of(s, p));
    CheckCleanKeepsInv(s, p);
    LocalKeepsGood(s, DoCheckClean(s, p), p, Of(s, p));
  }

  lemma CleanReceiptKeepsGood(s: State, p: Agent)
    requires Good(s) && p in s.pcs && s.pcs[p].stage.ACleanRemove?
    ensures Good(DoCleanReceipt(s, p))
  {
    assert PcOk(s, p, s.pcs[p]) && PcPin(s, p) && Pinned(s, Of(s, p));
    EngagedIsAlone(s, p);
    CleanReceiptKeepsInv(s, p);
    LocalKeepsGood(s, DoCleanReceipt(s, p), p, Of(s, p));
  }

  lemma WriteConfigKeepsGood(s: State, p: Agent, rest: nat)
    requires Good(s) && p in s.pcs && s.pcs[p].stage.APrepared?
    ensures Good(DoWriteConfig(s, p, rest))
  {
    assert PcOk(s, p, s.pcs[p]) && PcPin(s, p) && Pinned(s, Of(s, p));
    WriteConfigKeepsInv(s, p, rest);
    LocalKeepsGood(s, DoWriteConfig(s, p, rest), p, Of(s, p));
  }

  lemma UnlockConfigKeepsGood(s: State, p: Agent)
    requires Good(s) && p in s.pcs && s.pcs[p].stage.AWritten?
    ensures Good(DoUnlockConfig(s, p))
  {
    assert PcOk(s, p, s.pcs[p]) && PcPin(s, p) && Pinned(s, Of(s, p));
    UnlockConfigKeepsInv(s, p);
    LocalKeepsGood(s, DoUnlockConfig(s, p), p, Of(s, p));
  }

  lemma VerifyPostKeepsGood(s: State, p: Agent)
    requires Good(s) && p in s.pcs && s.pcs[p].stage.APosted?
    ensures Good(DoVerifyPost(s, p))
  {
    assert PcOk(s, p, s.pcs[p]) && PcPin(s, p) && Pinned(s, Of(s, p));
    if s.config.entry == Http(At(s, p).rec.endpoint) && s.config != At(s, p).rec.before {
      VerifyPostKeepsInv(s, p);
      LocalKeepsGood(s, DoVerifyPost(s, p), p, Of(s, p));
    } else {
      FailKeepsGood(s, p);
    }
  }

  lemma SettleKeepsGood(s: State, p: Agent, g: Stage)
    requires Good(s) && p in s.pcs
             && ((s.pcs[p].stage.AVerified? && g.ASettled?) || (s.pcs[p].stage.RVerified? && g.RSettled?))
    ensures Good(DoSettle(s, p, g))
  {
    assert PcOk(s, p, s.pcs[p]) && PcPin(s, p) && Pinned(s, Of(s, p));
    SettleKeepsInv(s, p, g);
    LocalKeepsGood(s, DoSettle(s, p, g), p, Of(s, p));
  }

  lemma ConcludeKeepsGood(s: State, p: Agent, g: Stage, phase: Phase)
    requires Good(s) && p in s.pcs
    requires (s.pcs[p].stage.ASettled? && g.ACommitted? && phase.Committed?)
             || (s.pcs[p].stage.RSettled? && g.RFinished? && phase.RolledBack?)
    ensures Good(DoConclude(s, p, g, phase))
  {
    assert PcOk(s, p, s.pcs[p]) && PcPin(s, p) && Pinned(s, Of(s, p));
    EngagedIsAlone(s, p);
    ConcludeKeepsInv(s, p, g, phase);
    LocalKeepsGood(s, DoConclude(s, p, g, phase), p, Of(s, p));
  }

  lemma AcquireKeepsGood(s: State, p: Agent, g: Stage, rec: Receipt)
    requires Good(s) && At(s, p).stage.Idle? && (g.AStart? || g.RStart? || g.MStart?)
    requires g.AStart? ==> rec.phase.Prepared? && rec.owner == p
    ensures Good(DoAcquire(s, p, g, rec))
  {
    assert PcPin(s, p) && Pinned(s, Of(s, p));
    AcquireKeepsInv(s, p, g, rec);
    if s.locks.lease.None? {
      IdlePin(DoAcquire(s, p, g, rec), p);
      LocalKeepsGood(s, DoAcquire(s, p, g, rec), p, Of(s, p));
    }
  }

  lemma SpoilKeepsGood(s: State, p: Agent, r: Receipt)
    requires Good(s) && p in s.pcs && s.pcs[p].stage.RStart? && Mine(s, p) == Some(r) && r.phase.Committed?
    ensures Good(Quit(Write(s, p, r.(phase := RecoveryRequired)), p))
  {
    assert PcOk(s, p, s.pcs[p]) && PcPin(s, p) && Pinned(s, Of(s, p));
    CommittedIsAlone(s, p, Of(s, p));
    SpoilKeepsInv(s, p, r);
    LocalKeepsGood(s, Quit(Write(s, p, r.(phase := RecoveryRequired)), p), p, Of(s, p));
  }

  lemma CheckRollbackKeepsGood(s: State, p: Agent, r: Receipt)
    requires Good(s) && p in s.pcs && s.pcs[p].stage.RStart? && Mine(s, p) == Some(r) && r.phase.Committed?
    ensures Good(CheckRollback(s, p, r))
  {
    assert PcOk(s, p, s.pcs[p]) && PcPin(s, p) && Pinned(s, Of(s, p));
    if r.after.None? || !Intact(s, r) || r.leaf.d != Of(s, p) {
      QuitKeepsGood(s, p);
    } else if Some(s.config) != r.after || s.config.entry != Http(r.endpoint) {
      SpoilKeepsGood(s, p, r);
    } else {
      CheckRollbackKeepsInv(s, p, r);
      LocalKeepsGood(s, CheckRollback(s, p, r), p, Of(s, p));
    }
  }

  lemma ReadRollbackKeepsGood(s: State, p: Agent)
    requires Good(s) && p in s.pcs && s.pcs[p].stage.RStart?
    ensures Good(DoReadRollback(s, p))
  {
    assert PcOk(s, p, s.pcs[p]) && PcPin(s, p) && Pinned(s, Of(s, p));
    var r := Mine(s, p);
    if r.None? || r.value.id != At(s, p).rec.id || !r.value.phase.Committed? {
      QuitKeepsGood(s, p);
    } else {
      CheckRollbackKeepsGood(s, p, r.value);
    }
  }

  lemma PendKeepsGood(s: State, p: Agent)
    requires Good(s) && p in s.pcs && s.pcs[p].stage.RChecked?
    ensures Good(DoPend(s, p))
  {
    assert PcOk(s, p, s.pcs[p]) && PcPin(s, p) && Pinned(s, Of(s, p));
    EngagedIsAlone(s, p);
    PendKeepsInv(s, p);
    LocalKeepsGood(s, DoPend(s, p), p, Of(s, p));
  }

  lemma RestoreKeepsGood(s: State, p: Agent, rest: nat)
    requires Good(s) && p in s.pcs && s.pcs[p].stage.RPending? && s.locks.config.None?
    ensures Good(DoRestore(s, p, rest))
  {
    assert PcOk(s, p, s.pcs[p]) && PcPin(s, p) && Pinned(s, Of(s, p));
    if Some(s.config) == At(s, p).rec.after {
      RestoreKeepsInv(s, p, rest);
      LocalKeepsGood(s, DoRestore(s, p, rest), p, Of(s, p));
    } else {
      FailKeepsGood(s, p);
    }
  }

  lemma VerifyRestoredKeepsGood(s: State, p: Agent)
    requires Good(s) && p in s.pcs && s.pcs[p].stage.RRestored?
    ensures Good(DoVerifyRestored(s, p))
  {
    assert PcOk(s, p, s.pcs[p]) && PcPin(s, p) && Pinned(s, Of(s, p));
    if s.config.entry == At(s, p).seen.entry && s.config.entry.Direct? {
      VerifyRestoredKeepsInv(s, p);
      LocalKeepsGood(s, DoVerifyRestored(s, p), p, Of(s, p));
    } else {
      FailKeepsGood(s, p);
    }
  }

  lemma ScanKeepsGood(s: State, p: Agent)
    requires Good(s) && p in s.pcs && s.pcs[p].stage.MStart?
    ensures Good(DoScan(s, p))
  {
    assert PcOk(s, p, s.pcs[p]) && PcPin(s, p) && Pinned(s, Of(s, p));
    if Clear(s) {
      ScanKeepsInv(s, p);
      LocalKeepsGood(s, DoScan(s, p), p, Of(s, p));
    } else {
      QuitKeepsGood(s, p);
    }
  }

  lemma EditKeepsGood(s: State, config: Content)
    requires Good(s) && s.locks.config.None?
    ensures Good(s.(config := config))
  {
    var t := s.(config := config);
    EditKeepsInv(s, config);
    forall q ensures PcPin(t, q) {
      assert PcPin(s, q);
      if q in s.pcs { assert PcOk(s, q, s.pcs[q]); }
    }
    forall d ensures Pinned(t, d) {
      assert Pinned(s, d);
    }
  }

  // ---- the late steps ----

  ghost predicate Safe(s: State, a: Action) {
    Good(Step(s, a)) && !Steals(s, a)
  }

  lemma CutSpares(s: State, l: Leaf)
    requires Good(s) && !Relied(s, l)
    ensures Good(CutSnap(s, l))
  {
    var t := CutSnap(s, l);
    FilesKeepInv(s, t.files);
    forall q ensures PcPin(t, q) {
      assert PcPin(s, q);
    }
    forall d ensures Pinned(t, d) {
      assert Pinned(s, d) && SlotAt(t, d) == SlotAt(s, d);
    }
  }

  lemma CutHarms(s: State, p: Agent)
    requires Good(s) && p in s.pcs && (s.pcs[p].stage.ACleanSnap? || s.pcs[p].stage.AOnlySnap?)
    requires Relied(s, s.pcs[p].rec.leaf)
    ensures !Good(DoCleanSnap(s, p))
  {
    var t, l := DoCleanSnap(s, p), s.pcs[p].rec.leaf;
    if SlotAt(s, l.d).Some? && SlotAt(s, l.d).value.leaf == l {
      assert !Pinned(t, l.d);
    } else {
      var q :| q in s.pcs && NeedsSnap(s.pcs[q].stage) && s.pcs[q].rec.leaf == l;
      assert t.pcs[q] == s.pcs[q];
      assert !PcPin(t, q);
    }
  }

  lemma CutExactly(s: State, p: Agent)
    requires Good(s) && p in s.pcs && (s.pcs[p].stage.ACleanSnap? || s.pcs[p].stage.AOnlySnap?)
    ensures Good(DoCleanSnap(s, p)) <==> !Relied(s, s.pcs[p].rec.leaf)
  {
    var l := s.pcs[p].rec.leaf;
    if Relied(s, l) {
      CutHarms(s, p);
    } else {
      CutSpares(s, l);
      QuitKeepsGood(CutSnap(s, l), p);
    }
  }

  lemma TakingKeepsPin(s: State, p: Agent, q: Agent)
    requires Good(s) && p in s.pcs && s.pcs[p].stage.ALostRemove? && !Counted(s, Of(s, p))
    ensures PcPin(DoCleanReceipt(s, p), q)
  {
    assert PcPin(s, q) && PcPin(s, p);
    assert q in s.pcs && s.pcs[q].rec.leaf.d == Of(s, p) ==> !Counting(s.pcs[q].stage);
  }

  lemma TakingSpares(s: State, p: Agent)
    requires Good(s) && p in s.pcs && s.pcs[p].stage.ALostRemove? && !Counted(s, Of(s, p))
    ensures Good(DoCleanReceipt(s, p))
  {
    var t := DoCleanReceipt(s, p);
    CleanReceiptKeepsInv(s, p);
    forall q ensures PcPin(t, q) {
      TakingKeepsPin(s, p, q);
    }
    forall e ensures Pinned(t, e) {
      assert Pinned(s, e);
    }
  }

  lemma TakingHarms(s: State, p: Agent)
    requires Good(s) && p in s.pcs && s.pcs[p].stage.ALostRemove? && Counted(s, Of(s, p))
    ensures !Good(DoCleanReceipt(s, p))
  {
    var t, d := DoCleanReceipt(s, p), Of(s, p);
    var q :| q in s.pcs && Counting(s.pcs[q].stage) && s.pcs[q].rec.leaf.d == d;
    assert t.pcs[q] == s.pcs[q];
    assert !PcPin(t, q);
  }

  lemma OverwriteSpares(s: State, p: Agent)
    requires Good(s) && p in s.pcs && Late(s.pcs[p].stage) && !Engaged(s, Of(s, p)) && Intact(s, s.pcs[p].rec)
    ensures Good(DoFail(s, p))
  {
    var t := DoFail(s, p);
    assert PcOk(s, p, s.pcs[p]) && PcPin(s, p);
    FailKeepsInv(s, p);
    assert Alone(s, p, Of(s, p));
    IdlePin(t, p);
    LocalKeepsGood(s, t, p, Of(s, p));
  }

  lemma OverwriteUnpins(s: State, p: Agent, q: Agent)
    requires Good(s) && p in s.pcs && Late(s.pcs[p].stage)
    requires q in s.pcs && Engaging(s.pcs[q].stage) && s.pcs[q].rec.leaf.d == Of(s, p)
    ensures !PcPin(DoFail(s, p), q)
  {
    assert PcPin(s, q) && DoFail(s, p).pcs[q] == s.pcs[q];
  }

  lemma OverwriteHarms(s: State, p: Agent)
    requires Good(s) && p in s.pcs && Late(s.pcs[p].stage) && (Engaged(s, Of(s, p)) || !Intact(s, s.pcs[p].rec))
    ensures !Good(DoFail(s, p))
  {
    var t, d := DoFail(s, p), Of(s, p);
    if !Intact(s, s.pcs[p].rec) {
      assert !Pinned(t, d);
    } else {
      var q :| q in s.pcs && Engaging(s.pcs[q].stage) && s.pcs[q].rec.leaf.d == d;
      OverwriteUnpins(s, p, q);
    }
  }

  lemma OverwriteExactly(s: State, p: Agent)
    requires Good(s) && p in s.pcs && Late(s.pcs[p].stage)
    ensures Good(DoFail(s, p)) <==> !Engaged(s, Of(s, p)) && Intact(s, s.pcs[p].rec)
    ensures SlotAt(DoFail(s, p), Of(s, p)) != Mine(s, p) || !Foreign(s, p)
  {
    assert PcOk(s, p, s.pcs[p]);
    if !Engaged(s, Of(s, p)) && Intact(s, s.pcs[p].rec) {
      OverwriteSpares(s, p);
    } else {
      OverwriteHarms(s, p);
    }
  }

  // ---- every step ----

  lemma OpenStepKeepsGood(s: State, a: Action)
    requires Good(s) && Enabled(s, a) && KindOf(a).Opens?
    ensures Good(OpenStep(s, a))
  {
    match a {
      case ReadReceipt(p) => ReadReceiptKeepsGood(s, p);
      case Archive(p) => ArchiveKeepsGood(s, p);
      case LockConfig(p) => LockConfigKeepsGood(s, p);
      case Snapshot(p) => SnapshotKeepsGood(s, p);
      case Prepare(p) => PrepareKeepsGood(s, p);
    }
  }

  lemma CheckCleanExactly(s: State, p: Agent)
    requires Good(s) && Enabled(s, CheckClean(p))
    ensures Good(DoCheckClean(s, p)) && !(Overwrites(s, CheckClean(p)) && Foreign(s, p)) <==> !Harmful(s, CheckClean(p))
  {
    if s.config == s.pcs[p].rec.before {
      CheckPasses(s, p);
    } else if s.pcs[p].stage.ACleanReceipt? {
      FailKeepsGood(s, p);
    } else {
      OverwriteExactly(s, p);
    }
  }

  lemma CleanReceiptExactly(s: State, p: Agent)
    requires Good(s) && Enabled(s, CleanReceipt(p))
    ensures Good(DoCleanReceipt(s, p)) && !(s.pcs[p].stage.ALostRemove? && Foreign(s, p)) <==>
              !Harmful(s, CleanReceipt(p))
  {
    if s.pcs[p].stage.ACleanRemove? {
      CleanReceiptKeepsGood(s, p);
    } else if Counted(s, Of(s, p)) {
      TakingHarms(s, p);
    } else {
      TakingSpares(s, p);
    }
  }

  // What the steps of a clean-up take from others.
  ghost predicate CleanSafe(s: State, a: Action)
    requires KindOf(a).Cleans?
  {
    Good(CleanStep(s, a)) && !((Overwrites(s, a) || TakesReceipt(s, a)) && Foreign(s, a.p))
  }

  lemma CleanStepExactly(s: State, a: Action)
    requires Good(s) && Enabled(s, a) && KindOf(a).Cleans?
    ensures CleanSafe(s, a) <==> !Harmful(s, a)
  {
    match a {
      case LoseSnapshot(p) => LoseKeepsGood(s, p, AVetoedSnap);
      case LosePrepare(p) => LoseKeepsGood(s, p, AVetoedLost);
      case Veto(p) => VetoKeepsGood(s, p);
      case LeaveVeto(p) => LeaveVetoKeepsGood(s, p);
      case CheckClean(p) => CheckCleanExactly(s, p);
      case CleanReceipt(p) => CleanReceiptExactly(s, p);
      case CleanSnap(p) => CutExactly(s, p);
    }
  }

  lemma CloseStepKeepsGood(s: State, a: Action)
    requires Good(s) && Enabled(s, a) && KindOf(a).Closes?
    ensures Good(CloseStep(s, a))
  {
    match a {
      case WriteConfig(p, rest) => WriteConfigKeepsGood(s, p, rest);
      case UnlockConfig(p) => UnlockConfigKeepsGood(s, p);
      case VerifyPost(p) => VerifyPostKeepsGood(s, p);
      case SettleAttach(p) => SettleKeepsGood(s, p, ASettled);
      case Commit(p) => ConcludeKeepsGood(s, p, ACommitted, Committed);
    }
  }

  lemma OtherStepKeepsGood(s: State, a: Action)
    requires Good(s) && Enabled(s, a) && KindOf(a).Others? && !Overwrites(s, a)
    ensures Good(OtherStep(s, a))
  {
    match a {
      case AcquireAttach(p, d, pinned, endpoint) =>
        AcquireKeepsGood(s, p, AStart, Receipt(0, p, Prepared, Base(d), pinned, None, endpoint));
      case AcquireRollback(p, d, id) => AcquireKeepsGood(s, p, RStart, REST.rec.(id := id, leaf := Base(d)));
      case AcquireMigrate(p) => AcquireKeepsGood(s, p, MStart, REST.rec);
      case ReadRollback(p) => ReadRollbackKeepsGood(s, p);
      case Pend(p) => PendKeepsGood(s, p);
      case Restore(p, rest) => RestoreKeepsGood(s, p, rest);
      case VerifyRestored(p) => VerifyRestoredKeepsGood(s, p);
      case SettleRollback(p) => SettleKeepsGood(s, p, RSettled);
      case FinishRollback(p) => ConcludeKeepsGood(s, p, RFinished, RolledBack);
      case Scan(p) => ScanKeepsGood(s, p);
      case Migrate(p, config) => EditKeepsGood(s, config);
      case Confirm(p) => QuitKeepsGood(s, p);
      case Fail(p) => FailKeepsGood(s, p);
      case GiveUp(p) => QuitKeepsGood(s, p);
      case CrashRun(p) => QuitKeepsGood(s, p);
      case Outside(config) => EditKeepsGood(s, config);
    }
  }

  // ---- whose receipt a step takes ----

  lemma OwnerIsNative(s: State, p: Agent)
    requires Good(s) && p in s.pcs && Owning(s.pcs[p].stage)
    ensures !Foreign(s, p)
  {
    assert PcPin(s, p) && PcOk(s, p, s.pcs[p]);
  }

  lemma CleanSteals(s: State, a: Action)
    requires Good(s) && Enabled(s, a) && KindOf(a).Cleans?
    ensures Steals(s, a) <==> (Overwrites(s, a) || TakesReceipt(s, a)) && Foreign(s, a.p)
  {
    var p := a.p;
    assert PcOk(s, p, s.pcs[p]);
    if Owning(s.pcs[p].stage) { OwnerIsNative(s, p); }
    if Overwrites(s, a) { OverwriteExactly(s, p); }
  }

  lemma OpenSteals(s: State, a: Action)
    requires Good(s) && Enabled(s, a) && KindOf(a).Opens?
    ensures !Steals(s, a)
  {
    assert PcOk(s, a.p, s.pcs[a.p]);
  }

  lemma CloseSteals(s: State, a: Action)
    requires Good(s) && Enabled(s, a) && KindOf(a).Closes?
    ensures !Steals(s, a)
  {
    OwnerIsNative(s, a.p);
  }

  // Every other action but these two needs the lease to touch a receipt.
  lemma OtherIsLeased(s: State, a: Action)
    requires Inv(s) && Enabled(s, a) && KindOf(a).Others? && !a.Outside? && !a.Fail? && !a.FinishRollback?
    ensures s.locks.lease == Some(a.p) || OtherStep(s, a).slots == s.slots
  {
    if a.p in s.pcs { assert PcOk(s, a.p, s.pcs[a.p]); }
  }

  lemma OtherSteals(s: State, a: Action)
    requires Good(s) && Enabled(s, a) && KindOf(a).Others?
    ensures Steals(s, a) <==> Overwrites(s, a) && Foreign(s, a.p)
  {
    if a.Outside? {
    } else if a.Fail? && Late(s.pcs[a.p].stage) {
      OverwriteExactly(s, a.p);
    } else if a.Fail? || a.FinishRollback? {
      assert PcOk(s, a.p, s.pcs[a.p]);
      if Owning(s.pcs[a.p].stage) { OwnerIsNative(s, a.p); }
    } else {
      OtherIsLeased(s, a);
    }
  }

  lemma OtherStepExactly(s: State, a: Action)
    requires Good(s) && Enabled(s, a) && KindOf(a).Others?
    ensures Good(OtherStep(s, a)) && !(Overwrites(s, a) && Foreign(s, a.p)) <==> !Harmful(s, a)
  {
    if Overwrites(s, a) {
      OverwriteExactly(s, a.p);
    } else {
      OtherStepKeepsGood(s, a);
    }
  }

  /** From a good state a step leads to a good state and takes no receipt of another run away
      if and only if it is not harmful. */
  lemma StepExactly(s: State, a: Action)
    requires Good(s) && Enabled(s, a)
    ensures Safe(s, a) <==> !Harmful(s, a)
  {
    match KindOf(a)
    case Opens => OpenStepKeepsGood(s, a); OpenSteals(s, a);
    case Cleans => CleanStepExactly(s, a); CleanSteals(s, a);
    case Closes => CloseStepKeepsGood(s, a); CloseSteals(s, a);
    case Others => OtherStepExactly(s, a); OtherSteals(s, a);
  }

  ghost predicate Unharmed(tr: Trace) {
    tr.Then? ==> Unharmed(tr.prev) && Enabled(End(tr.prev), tr.a) && !Harmful(End(tr.prev), tr.a)
  }

  lemma {:induction false} RunKeepsGood(tr: Trace)
    requires Unharmed(tr)
    ensures Good(End(tr))
  {
    if tr.Then? {
      RunKeepsGood(tr.prev);
      StepExactly(End(tr.prev), tr.a);
    }
  }

  // ---- what the pins mean ----

  /** The snapshot named by a daemon's current receipt is its preimage; from `committed` on
      the receipt also carries a postimage with the endpoint that differs from it. */
  lemma CurrentReceiptIsPinned(tr: Trace, d: Daemon)
    requires Unharmed(tr) && SlotAt(End(tr), d).Some?
    ensures var r := SlotAt(End(tr), d).value;
            && Intact(End(tr), r)
            && (r.phase.Committed? || r.phase.RollbackPending? || r.phase.RolledBack? ==> GoodAfter(r))
  {
    RunKeepsGood(tr);
    assert Pinned(End(tr), d);
  }

  /** A client write replaces exactly the content its own prepared receipt has pinned. */
  lemma WriteIsPrepared(tr: Trace, a: Action)
    requires Unharmed(tr) && Enabled(End(tr), a) && a.WriteConfig?
    ensures var r := Mine(End(tr), a.p);
            && r.Some? && r.value.phase.Prepared? && r.value.owner == a.p
            && Intact(End(tr), r.value) && r.value.before == End(tr).config
  {
    RunKeepsGood(tr);
    assert PcPin(End(tr), a.p) && PcOk(End(tr), a.p, End(tr).pcs[a.p]);
  }

  /** From its prepared or pending receipt until it settles it, a run is the only one that
      mutates the key for its daemon, and no guarded migration passes. */
  lemma OwnerExcludesOthers(tr: Trace, p: Agent, a: Action)
    requires Unharmed(tr) && p in End(tr).pcs && Owning(End(tr).pcs[p].stage)
    requires Enabled(End(tr), a) && Mutates(a) && Concerns(End(tr), a, Of(End(tr), p))
    ensures a.p == p && !a.Migrate?
  {
    RunKeepsGood(tr);
    UnharmedIsRun(tr);
    assert PcPin(End(tr), p) && PcOk(End(tr), p, End(tr).pcs[p]);
    UnsettledExcludesOthers(End(tr), a, Of(End(tr), p));
  }

  lemma {:induction false} UnharmedIsRun(tr: Trace)
    requires Unharmed(tr)
    ensures IsRun(tr)
  {
    if tr.Then? { UnharmedIsRun(tr.prev); }
  }

  /** A restore over the recorded postimage puts the pinned entry back, and over
      anything else it changes no config. */
  lemma RestoreIsExact(tr: Trace, a: Action)
    requires Unharmed(tr) && Enabled(End(tr), a) && a.Restore?
    ensures var s := End(tr);
            var r := Mine(s, a.p);
            && r.Some? && r.value.phase.RollbackPending? && Intact(s, r.value)
            && (if Some(s.config) == At(s, a.p).rec.after then Step(s, a).config.entry == r.value.before.entry
                else Step(s, a).config == s.config)
  {
    RunKeepsGood(tr);
    assert PcPin(End(tr), a.p) && PcOk(End(tr), a.p, End(tr).pcs[a.p]);
  }

  /** `rolled-back` is recorded only by a run whose last read of the config had the
      snapshot's entry. */
  lemma RolledBackIsVerified(tr: Trace, a: Action)
    requires Unharmed(tr) && Enabled(End(tr), a) && a.FinishRollback?
    ensures var s := End(tr);
            var r := Mine(s, a.p);
            && r.Some? && Intact(s, r.value)
            && At(s, a.p).seen.entry == r.value.before.entry && At(s, a.p).seen.entry.Direct?
  {
    RunKeepsGood(tr);
    assert PcPin(End(tr), a.p);
  }

  // ---- sequential runs ----

  // One run at a time: nobody else is between two of its steps.
  ghost predicate Sequential(tr: Trace) {
    tr.Then? ==>
      && Sequential(tr.prev) && Enabled(End(tr.prev), tr.a)
      && (!tr.a.Outside? ==> forall q :: q in End(tr.prev).pcs && q != tr.a.p ==> End(tr.prev).pcs[q].stage.Idle?)
  }

  // What a run alone finds when it is late: its own files and nobody else's.
  ghost predicate TailOk(s: State, p: Agent) {
    p in s.pcs && Trailing(s.pcs[p].stage) ==> TailSide(s, s.pcs[p])
  }

  ghost predicate TailSide(s: State, pc: Pc) {
    var r := SlotAt(s, pc.rec.leaf.d);
    if pc.stage.ACommitted? || pc.stage.RFinished? then r == Some(pc.rec)
    else
      && (r.Some? ==> r.value.leaf != pc.rec.leaf && r.value.phase.RolledBack?)
      && (Late(pc.stage) ==> Intact(s, pc.rec))
  }

  lemma OpenTail(s: State, a: Action)
    requires Enabled(s, a) && KindOf(a).Opens?
    ensures !Trailing(At(OpenStep(s, a), a.p).stage)
  {
  }

  lemma VetoTail(s: State, p: Agent)
    requires Good(s) && Enabled(s, Veto(p))
    ensures TailOk(DoVeto(s, p), p)
  {
    assert PcPin(s, p) && Pinned(s, Of(s, p));
  }

  lemma LoseTail(s: State, p: Agent, g: Stage)
    requires Good(s) && p in s.pcs
    requires (s.pcs[p].stage.ALocked? && g.AVetoedSnap?) || (s.pcs[p].stage.ASnapped? && g.AVetoedLost?)
    ensures TailOk(DoLose(s, p, g), p)
  {
    assert PcPin(s, p) && Pinned(s, Of(s, p));
  }

  lemma CleanTail(s: State, a: Action)
    requires Good(s) && Enabled(s, a) && KindOf(a).Cleans? && TailOk(s, a.p)
    ensures TailOk(CleanStep(s, a), a.p)
  {
    match a {
      case LoseSnapshot(p) => LoseTail(s, p, AVetoedSnap);
      case LosePrepare(p) => LoseTail(s, p, AVetoedLost);
      case Veto(p) => VetoTail(s, p);
      case LeaveVeto(p) =>
      case CheckClean(p) => CheckTail(s, p);
      case CleanReceipt(p) => ReceiptTail(s, p);
      case CleanSnap(p) =>
    }
  }

  lemma CheckTail(s: State, p: Agent)
    requires Enabled(s, CheckClean(p)) && TailOk(s, p)
    ensures TailOk(DoCheckClean(s, p), p)
  {
  }

  lemma ReceiptTail(s: State, p: Agent)
    requires Good(s) && Enabled(s, CleanReceipt(p)) && TailOk(s, p)
    ensures TailOk(DoCleanReceipt(s, p), p)
  {
    assert PcPin(s, p);
  }

  lemma CloseTail(s: State, a: Action)
    requires Enabled(s, a) && KindOf(a).Closes? && !a.Commit?
    ensures !Trailing(At(CloseStep(s, a), a.p).stage)
  {
  }

  lemma OtherTail(s: State, a: Action)
    requires Enabled(s, a) && KindOf(a).Others? && !a.Outside? && !a.FinishRollback?
    ensures !Trailing(At(OtherStep(s, a), a.p).stage)
  {
  }

  lemma ConcludeTail(s: State, p: Agent, g: Stage, phase: Phase)
    requires g.ACommitted? || g.RFinished?
    ensures TailOk(DoConclude(s, p, g, phase), p)
  {
  }

  lemma OwnTail(s: State, a: Action)
    requires Good(s) && Enabled(s, a) && !a.Outside? && TailOk(s, a.p)
    ensures TailOk(Step(s, a), a.p)
  {
    if a.Commit? {
      ConcludeTail(s, a.p, ACommitted, Committed);
    } else if a.FinishRollback? {
      ConcludeTail(s, a.p, RFinished, RolledBack);
    } else {
      match KindOf(a)
      case Opens => OpenTail(s, a);
      case Cleans => CleanTail(s, a);
      case Closes => CloseTail(s, a);
      case Others => OtherTail(s, a);
    }
  }

  lemma StepTail(s: State, a: Action, q: Agent)
    requires Good(s) && Enabled(s, a) && TailOk(s, q) && (a.Outside? || q == a.p || At(s, q).stage.Idle?)
    ensures TailOk(Step(s, a), q)
  {
    if a.Outside? {
      assert Step(s, a) == s.(config := a.config);
    } else if q == a.p {
      OwnTail(s, a);
    } else {
      IdleStays(s, a, q);
    }
  }

  lemma IdleStays(s: State, a: Action, q: Agent)
    requires Enabled(s, a) && !a.Outside? && q != a.p
    ensures At(Step(s, a), q) == At(s, q)
  {
    match KindOf(a)
    case Opens => OpenStays(s, a, q);
    case Cleans => CleanStays(s, a, q);
    case Closes => CloseStays(s, a, q);
    case Others => OtherStays(s, a, q);
  }

  lemma OpenStays(s: State, a: Action, q: Agent)
    requires KindOf(a).Opens? && q != a.p
    ensures At(OpenStep(s, a), q) == At(s, q)
  {
  }

  lemma CleanStays(s: State, a: Action, q: Agent)
    requires KindOf(a).Cleans? && q != a.p
    ensures At(CleanStep(s, a), q) == At(s, q)
  {
  }

  lemma CloseStays(s: State, a: Action, q: Agent)
    requires KindOf(a).Closes? && q != a.p
    ensures At(CloseStep(s, a), q) == At(s, q)
  {
  }

  lemma OtherStays(s: State, a: Action, q: Agent)
    requires KindOf(a).Others? && !a.Outside? && q != a.p
    ensures At(OtherStep(s, a), q) == At(s, q)
  {
  }

  /** Every sequential run, with crashes anywhere, is unharmed. */
  lemma {:induction false} SequentialIsUnharmed(tr: Trace)
    requires Sequential(tr)
    ensures Unharmed(tr) && forall q :: TailOk(End(tr), q)
  {
    if tr.Then? {
      SequentialIsUnharmed(tr.prev);
      RunKeepsGood(tr.prev);
      var s, a := End(tr.prev), tr.a;
      forall q ensures TailOk(Step(s, a), q) {
        StepTail(s, a, q);
      }
      AloneIsHarmless(s, a);
    }
  }

  lemma AloneIsHarmless(s: State, a: Action)
    requires Good(s) && Enabled(s, a) && (!a.Outside? ==> TailOk(s, a.p))
    requires !a.Outside? ==> forall q :: q in s.pcs && q != a.p ==> s.pcs[q].stage.Idle?
    ensures !Harmful(s, a)
  {
    if a.CleanSnap? {
      RemovalAlone(s, a.p);
    } else if Overwrites(s, a) || TakesReceipt(s, a) {
      LateAlone(s, a.p);
    }
  }

  lemma RemovalAlone(s: State, p: Agent)
    requires Good(s) && Enabled(s, CleanSnap(p)) && TailOk(s, p)
    requires forall q :: q in s.pcs && q != p ==> s.pcs[q].stage.Idle?
    ensures !Relied(s, At(s, p).rec.leaf)
  {
  }

  lemma LateAlone(s: State, p: Agent)
    requires Good(s) && p in s.pcs && Late(s.pcs[p].stage) && TailOk(s, p)
    requires forall q :: q in s.pcs && q != p ==> s.pcs[q].stage.Idle?
    ensures !Engaged(s, Of(s, p)) && !Counted(s, Of(s, p)) && !Foreign(s, p) && Intact(s, s.pcs[p].rec)
  {
    LateOwn(s, p);
  }

  lemma LateOwn(s: State, p: Agent)
    requires Good(s) && p in s.pcs && Late(s.pcs[p].stage) && TailOk(s, p)
    ensures !Foreign(s, p) && Intact(s, s.pcs[p].rec)
  {
    assert PcOk(s, p, s.pcs[p]) && Pinned(s, Of(s, p));
  }

  // ---- the harms ----

  // A run q stands at a late stage for d, no receipt of d is out, and the key is free for p.
  ghost predicate Looming(s: State, g: Stage, d: Daemon, q: Agent, p: Agent) {
    && q in s.pcs && s.pcs[q].stage == g && s.pcs[q].rec.leaf == Base(d) && s.pcs[q].rec.owner == q
    && s.locks == Locks(None, None) && SlotAt(s, d).None? && s.config.entry.Direct?
    && p != q && At(s, p) == REST
  }

  /** From every run that leaves such a removal outstanding, a newcomer's attach can lose the
      snapshot its prepared receipt names. */
  lemma OutstandingRemovalLosesSnapshot(tr: Trace, d: Daemon, q: Agent, p: Agent) returns (more: Trace)
    requires IsRun(tr) && Looming(End(tr), ACleanSnap, d, q, p)
    ensures IsRun(more)
    ensures var r := SlotAt(End(more), d);
            r.Some? && r.value.phase.Prepared? && r.value.owner == p && !Intact(End(more), r.value)
  {
    var x := PlayPrepared(tr, End(tr).config, p, d, q);
    more := ActCleans(x, CleanSnap(q));
  }

  /** ... or find its prepared receipt replaced by a foreign one when it writes the config. */
  lemma OutstandingRemovalLosesReceipt(tr: Trace, d: Daemon, q: Agent, p: Agent) returns (more: Trace)
    requires IsRun(tr) && Looming(End(tr), ACleanSnap, d, q, p)
    ensures IsRun(more) && Enabled(End(more), WriteConfig(p, 0)) && Of(End(more), p) == d
    ensures var r := SlotAt(End(more), d); r.Some? && r.value.phase.RecoveryRequired? && r.value.owner == q
  {
    var x := PlayPrepared(tr, End(tr).config, p, d, q);
    more := PlayFail(x, d, q, p);
  }

  lemma PlayFail(tr: Trace, d: Daemon, q: Agent, p: Agent) returns (more: Trace)
    requires IsRun(tr) && p != q && Late(At(End(tr), q).stage) && Of(End(tr), q) == d && At(End(tr), q).rec.owner == q
    ensures IsRun(more) && At(End(more), p) == At(End(tr), p)
    ensures var r := SlotAt(End(more), d); r.Some? && r.value.phase.RecoveryRequired? && r.value.owner == q
    ensures End(tr).locks.config != Some(q) && End(tr).locks.lease != Some(q) ==> End(more).locks == End(tr).locks
  {
    more := ActOthers(tr, Fail(q));
  }

  /** Such a removal is outstanding after one vetoed attach from any initial config. */
  lemma VetoLeavesRemoval(c: Content, d: Daemon) returns (tr: Trace)
    requires c.entry.Direct?
    ensures IsRun(tr) && Looming(End(tr), ACleanSnap, d, 0, 1)
  {
    tr := PlayVetoed(c, d);
    tr := ActCleans(tr, CheckClean(0));
    tr := ActCleans(tr, CleanReceipt(0));
  }

  lemma PlayVetoed(c: Content, d: Daemon) returns (tr: Trace)
    requires c.entry.Direct?
    ensures IsRun(tr) && End(tr).config == c && End(tr).locks == Locks(None, None) && At(End(tr), 1) == REST
    ensures At(End(tr), 0).stage.ACleanReceipt? && At(End(tr), 0).rec == Fresh(0, d, c, 0)
  {
    tr := PlayPrepared(Start(c), c, 0, d, 1);
    tr := ActCleans(tr, Veto(0));
    tr := ActCleans(tr, LeaveVeto(0));
  }

  /** After a receipt write that landed nothing, a newcomer can find its prepared receipt gone
      when it writes the config, because the clean-up removes whatever receipt there is ... */
  lemma LostReceiptTakesReceipt(tr: Trace, d: Daemon, q: Agent, p: Agent) returns (more: Trace)
    requires IsRun(tr) && Looming(End(tr), ALostRemove, d, q, p)
    ensures IsRun(more) && Enabled(End(more), WriteConfig(p, 0)) && Of(End(more), p) == d
    ensures SlotAt(End(more), d).None?
  {
    var x := PlayPrepared(tr, End(tr).config, p, d, q);
    more := ActCleans(x, CleanReceipt(q));
  }

  /** ... or replaced by the first run's, after it has written. */
  lemma LostReceiptReplacesReceipt(tr: Trace, d: Daemon, q: Agent, p: Agent) returns (more: Trace)
    requires IsRun(tr) && Looming(End(tr), ALostReceipt, d, q, p) && At(End(tr), q).rec.before.entry.Direct?
    ensures IsRun(more) && At(End(more), p).stage.AWritten? && Of(End(more), p) == d
    ensures var r := SlotAt(End(more), d); r.Some? && r.value.phase.RecoveryRequired? && r.value.owner == q
  {
    var x := PlayPrepared(tr, End(tr).config, p, d, q);
    var y := ActCloses(x, WriteConfig(p, 0));
    more := ActCleans(y, CheckClean(q));
  }

  /** One receipt write that lands nothing leads to both, from any initial config. */
  lemma LostPrepareLooms(c: Content, d: Daemon) returns (tr: Trace, more: Trace)
    requires c.entry.Direct?
    ensures IsRun(tr) && Looming(End(tr), ALostReceipt, d, 0, 1) && At(End(tr), 0).rec.before == c == End(tr).config
    ensures IsRun(more) && Looming(End(more), ALostRemove, d, 0, 1) && End(more).config == c && End(more).slots == map[]
  {
    var x := PlaySnapped(Start(c), c, 0, d, 1);
    var y := ActCleans(x, LosePrepare(0));
    tr := ActCleans(y, LeaveVeto(0));
    more := ActCleans(tr, CheckClean(0));
  }

  // An attach of c for d by p, from its prepared receipt to its settled lease.
  lemma PlaySettled(tr: Trace, c: Content, p: Agent, d: Daemon, q: Agent) returns (more: Trace)
    requires IsRun(tr) && p != q && c.entry.Direct? && At(End(tr), p).rec.leaf == Base(d)
    requires At(End(tr), p).stage.APrepared? && At(End(tr), p).rec.before == c && At(End(tr), p).rec.endpoint == 0
    requires End(tr).locks == Locks(Some(p), Some(p)) && At(End(tr), q) == REST
    ensures IsRun(more) && End(more).slots == End(tr).slots && End(more).files == End(tr).files
    ensures End(more).config == Content(Http(0), 0) && End(more).locks == Locks(None, None) && At(End(more), q) == REST
    ensures At(End(more), p).stage.ASettled?
            && At(End(more), p).rec == At(End(tr), p).rec.(after := Some(Content(Http(0), 0)))
  {
    more := PlayWritten(tr, c, p, d, q);
    more := ActCloses(more, VerifyPost(p));
    more := ActCloses(more, SettleAttach(p));
  }

  lemma PlayWritten(tr: Trace, c: Content, p: Agent, d: Daemon, q: Agent) returns (more: Trace)
    requires IsRun(tr) && p != q && At(End(tr), p).rec.leaf == Base(d)
    requires At(End(tr), p).stage.APrepared? && At(End(tr), p).rec.before == c && At(End(tr), p).rec.endpoint == 0
    requires End(tr).locks == Locks(Some(p), Some(p)) && At(End(tr), q) == REST
    ensures IsRun(more) && End(more).slots == End(tr).slots && End(more).files == End(tr).files
    ensures End(more).config == Content(Http(0), 0) && End(more).locks == Locks(Some(p), None)
            && At(End(more), q) == REST
    ensures At(End(more), p) == At(End(tr), p).(stage := APosted)
  {
    more := ActCloses(tr, WriteConfig(p, 0));
    more := ActCloses(more, UnlockConfig(p));
  }

  // A newcomer whose prepared receipt has been taken by a run that is dead by now.
  lemma PlayTaken(c: Content, d: Daemon) returns (tr: Trace)
    requires c.entry.Direct?
    ensures IsRun(tr) && End(tr).config == c && End(tr).locks == Locks(Some(1), Some(1)) && Clear(End(tr))
    ensures At(End(tr), 0) == REST && At(End(tr), 1).stage.APrepared?
            && At(End(tr), 1).rec.(id := 0) == Fresh(1, d, c, 0)
  {
    var x, y := LostPrepareLooms(c, d);
    tr := PlayPrepared(y, c, 1, d, 0);
    tr := PlayTake(tr, d);
  }

  lemma PlayTake(tr: Trace, d: Daemon) returns (more: Trace)
    requires IsRun(tr) && At(End(tr), 0).stage.ALostRemove? && Of(End(tr), 0) == d && End(tr).slots.Keys == {d}
    requires End(tr).locks == Locks(Some(1), Some(1))
    ensures IsRun(more) && Clear(End(more)) && At(End(more), 0) == REST && At(End(more), 1) == At(End(tr), 1)
    ensures End(more).config == End(tr).config && End(more).locks == End(tr).locks
  {
    more := ActCleans(tr, CleanReceipt(0));
    more := ActOthers(more, CrashRun(0));
  }

  /** Once its receipt is taken, nothing protects a run: a guarded migration can mutate the key
      between the run's write and its commit. */
  lemma TakenReceiptAdmitsMigration(c: Content, d: Daemon, config: Content) returns (tr: Trace)
    requires c.entry.Direct?
    ensures IsRun(tr) && Enabled(End(tr), Migrate(0, config)) && At(End(tr), 1).stage.ASettled?
  {
    tr := PlayTaken(c, d);
    tr := PlaySettled(tr, c, 1, d, 0);
    tr := PlayGuard(tr);
  }

  // A guarded migration by 0 finds no receipt in its way.
  lemma PlayGuard(tr: Trace) returns (more: Trace)
    requires IsRun(tr) && At(End(tr), 0) == REST && Clear(End(tr)) && End(tr).locks == Locks(None, None)
    ensures IsRun(more) && At(End(more), 1) == At(End(tr), 1)
    ensures At(End(more), 0).stage.MGuarded? && End(more).locks.config.None?
  {
    more := ActOthers(tr, AcquireMigrate(0));
    more := ActOthers(more, Scan(0));
  }

  // A rollback by 1 has put its receipt out before the commit of 0 is read back.
  lemma PlayPending(c: Content, d: Daemon) returns (tr: Trace)
    requires c.entry.Direct?
    ensures IsRun(tr) && At(End(tr), 0).stage.ACommitted? && At(End(tr), 0).rec.owner == 0 && Of(End(tr), 0) == d
    ensures At(End(tr), 1).stage.RPending? && Of(End(tr), 1) == d && End(tr).locks == Locks(Some(1), None)
  {
    tr := PlayPrepared(Start(c), c, 0, d, 1);
    tr := PlaySettled(tr, c, 0, d, 1);
    tr := ActCloses(tr, Commit(0));
    tr := ActOthers(tr, AcquireRollback(1, d, 0));
    tr := PlayPend(tr, d);
  }

  lemma PlayPend(tr: Trace, d: Daemon) returns (more: Trace)
    requires IsRun(tr) && At(End(tr), 1).stage.RStart? && Of(End(tr), 1) == d && SlotAt(End(tr), d).Some?
    requires var r, s := SlotAt(End(tr), d).value, End(tr);
             && r.phase.Committed? && r.id == At(s, 1).rec.id && r.leaf.d == d && Intact(s, r)
             && r.after == Some(s.config) && s.config.entry == Http(r.endpoint)
    ensures IsRun(more) && At(End(more), 0) == At(End(tr), 0) && End(more).locks == End(tr).locks
    ensures At(End(more), 1).stage.RPending? && Of(End(more), 1) == d
  {
    more := ActOthers(tr, ReadRollback(1));
    more := ActOthers(more, Pend(1));
  }

  /** A committed receipt that is not read back as written is replaced, also when it was a
      rollback that replaced it first: the rollback then restores under a foreign receipt. */
  lemma ReadBackReplacesPending(c: Content, d: Daemon) returns (tr: Trace)
    requires c.entry.Direct?
    ensures IsRun(tr) && Enabled(End(tr), Restore(1, 0)) && Of(End(tr), 1) == d
    ensures var r := SlotAt(End(tr), d); r.Some? && r.value.phase.RecoveryRequired? && r.value.owner == 0
  {
    tr := PlayPending(c, d);
    tr := PlayFail(tr, d, 0, 1);
  }

  // ---- archived receipts ----

  ghost predicate ArchivePinned(s: State) {
    forall id :: id in s.files.history ==> Intact(s, s.files.history[id])
  }

  // The step rewrites or removes a snapshot that an archived receipt names.
  ghost predicate LosesArchive(s: State, a: Action) {
    exists id :: id in s.files.history && !a.Outside? && s.files.history[id].leaf == At(s, a.p).rec.leaf &&
      ((a.Snapshot? && s.config != s.files.history[id].before) || a.CleanSnap?)
  }

  // Which steps touch the files at all.
  predicate TouchesFiles(a: Action) {
    a.Archive? || a.Snapshot? || a.CleanSnap?
  }

  lemma OpenFiles(s: State, a: Action)
    requires KindOf(a).Opens? && !TouchesFiles(a)
    ensures OpenStep(s, a).files == s.files
  {
  }

  lemma CleanFiles(s: State, a: Action)
    requires KindOf(a).Cleans? && !TouchesFiles(a)
    ensures CleanStep(s, a).files == s.files
  {
  }

  lemma CloseFiles(s: State, a: Action)
    requires KindOf(a).Closes?
    ensures CloseStep(s, a).files == s.files
  {
  }

  lemma OtherFiles(s: State, a: Action)
    requires KindOf(a).Others?
    ensures OtherStep(s, a).files == s.files
  {
  }

  lemma ArchiveKeepsArchive(s: State, p: Agent)
    requires Good(s) && ArchivePinned(s) && At(s, p).stage.AArchive?
    ensures ArchivePinned(DoArchive(s, p))
  {
    assert Pinned(s, Of(s, p));
  }

  lemma SnapshotArchive(s: State, p: Agent)
    requires ArchivePinned(s)
    ensures ArchivePinned(DoSnapshot(s, p)) <==> !LosesArchive(s, Snapshot(p))
  {
    var t := DoSnapshot(s, p);
    if LosesArchive(s, Snapshot(p)) {
      var id :| id in s.files.history && s.files.history[id].leaf == At(s, p).rec.leaf
        && s.config != s.files.history[id].before;
      assert !Intact(t, t.files.history[id]);
    } else {
      forall id | id in t.files.history ensures Intact(t, t.files.history[id]) {
        assert Intact(s, s.files.history[id]);
      }
    }
  }

  lemma RemovalArchive(s: State, p: Agent)
    requires ArchivePinned(s)
    ensures ArchivePinned(DoCleanSnap(s, p)) <==> !LosesArchive(s, CleanSnap(p))
  {
    var t := DoCleanSnap(s, p);
    if LosesArchive(s, CleanSnap(p)) {
      var id :| id in s.files.history && s.files.history[id].leaf == At(s, p).rec.leaf;
      assert !Intact(t, t.files.history[id]);
    } else {
      forall id | id in t.files.history ensures Intact(t, t.files.history[id]) {
        assert Intact(s, s.files.history[id]);
      }
    }
  }

  /** An archived receipt loses its snapshot exactly by an attach that snapshots another content
      into the same leaf, or by a late removal of that leaf. */
  lemma ArchiveExactly(s: State, a: Action)
    requires Good(s) && ArchivePinned(s) && Enabled(s, a)
    ensures ArchivePinned(Step(s, a)) <==> !LosesArchive(s, a)
  {
    if a.Archive? {
      ArchiveKeepsArchive(s, a.p);
    } else if a.Snapshot? {
      SnapshotArchive(s, a.p);
    } else if a.CleanSnap? {
      RemovalArchive(s, a.p);
    } else {
      match KindOf(a)
      case Opens => OpenFiles(s, a);
      case Cleans => CleanFiles(s, a);
      case Closes => CloseFiles(s, a);
      case Others => OtherFiles(s, a);
    }
  }

  // A rolled-back receipt r on the shared leaf of d, and the key free.
  ghost predicate BackOnBase(s: State, r: Receipt, d: Daemon) {
    && SlotAt(s, d) == Some(r) && r.phase.RolledBack? && r.leaf == Base(d) && Intact(s, r)
    && s.locks == Locks(None, None) && s.config.entry == r.before.entry && s.config.entry.Direct?
    && r.id !in s.files.history && r.id < s.next
  }

  // A re-attach by p archives r and is vetoed after its own receipt is out ...
  lemma PlayArchived(tr: Trace, r: Receipt, d: Daemon, p: Agent) returns (more: Trace)
    requires IsRun(tr) && BackOnBase(End(tr), r, d) && At(End(tr), p) == REST
    ensures IsRun(more) && At(End(more), p).stage.AReady? && Of(End(more), p) == d
    ensures At(End(more), p).rec == Receipt(End(tr).next, p, Prepared, Op(d, End(tr).next), End(tr).config, None, 0)
    ensures End(more).locks == Locks(Some(p), None) && End(more).config == End(tr).config
            && SlotAt(End(more), d) == Some(r)
    ensures r.id in End(more).files.history && End(more).files.history[r.id] == r
  {
    var c := End(tr).config;
    var x := ActOthers(tr, AcquireAttach(p, d, c, 0));
    var y := ActOpens(x, ReadReceipt(p));
    more := ActOpens(y, Archive(p));
  }

  lemma PlayWithdrawn(tr: Trace, r: Receipt, d: Daemon, p: Agent) returns (more: Trace)
    requires IsRun(tr) && At(End(tr), p).stage.AReady? && Of(End(tr), p) == d && End(tr).config.entry.Direct?
    requires At(End(tr), p).rec.before == End(tr).config && End(tr).locks == Locks(Some(p), None)
    requires r.id in End(tr).files.history && End(tr).files.history[r.id] == r
    ensures IsRun(more) && End(more).config == End(tr).config && End(more).locks == Locks(None, None)
    ensures At(End(more), p).stage.ACleanReceipt? && At(End(more), p).rec == At(End(tr), p).rec
    ensures r.id in End(more).files.history && End(more).files.history[r.id] == r
  {
    var x := ActOpens(tr, LockConfig(p));
    var y := ActOpens(x, Snapshot(p));
    var z := ActOpens(y, Prepare(p));
    var w := ActCleans(z, Veto(p));
    more := ActCleans(w, LeaveVeto(p));
  }

  lemma PlayRemoved(tr: Trace, r: Receipt, d: Daemon, p: Agent) returns (more: Trace)
    requires IsRun(tr) && At(End(tr), p).stage.ACleanReceipt? && Of(End(tr), p) == d
             && End(tr).locks == Locks(None, None)
    requires At(End(tr), p).rec.before == End(tr).config
    requires r.id in End(tr).files.history && End(tr).files.history[r.id] == r
    ensures IsRun(more) && End(more).locks == Locks(None, None) && SlotAt(End(more), d).None?
    ensures At(End(more), p) == REST && End(more).config == End(tr).config
    ensures r.id in End(more).files.history && End(more).files.history[r.id] == r
  {
    var x := ActCleans(tr, CheckClean(p));
    var y := ActCleans(x, CleanReceipt(p));
    more := ActCleans(y, CleanSnap(p));
  }

  // Another content, and a whole attach of it.
  lemma PlayOverwrite(tr: Trace, r: Receipt, d: Daemon, p: Agent, q: Agent) returns (more: Trace)
    requires IsRun(tr) && End(tr).locks == Locks(None, None) && SlotAt(End(tr), d).None? && p != q
    requires At(End(tr), p) == REST && End(tr).config.entry.Direct? && r.leaf == Base(d)
    requires r.id in End(tr).files.history && End(tr).files.history[r.id] == r
    ensures IsRun(more) && r.id in End(more).files.history && End(more).files.history[r.id] == r
            && !Intact(End(more), r)
  {
    var c := Content(End(tr).config.entry, r.before.rest + 1);
    var w := PlayOutside(tr, c);
    more := PlayPrepared(w, c, p, d, q);
  }

  lemma PlayOutside(tr: Trace, c: Content) returns (more: Trace)
    requires IsRun(tr) && End(tr).locks.config.None?
    ensures IsRun(more) && End(more) == End(tr).(config := c)
  {
    more := ActOthers(tr, Outside(c));
  }

  /** ... and the next attach, reading no receipt, overwrites the archived one's snapshot, from
      every state with a rolled-back receipt on the shared leaf. */
  lemma WithdrawnReattachLosesArchive(tr: Trace, r: Receipt, d: Daemon, p: Agent, q: Agent) returns (more: Trace)
    requires IsRun(tr) && BackOnBase(End(tr), r, d) && p != q && At(End(tr), p) == REST && At(End(tr), q) == REST
    ensures IsRun(more) && r.id in End(more).files.history && End(more).files.history[r.id] == r
            && !Intact(End(more), r)
  {
    var x := PlayArchived(tr, r, d, p);
    var y := PlayWithdrawn(x, r, d, p);
    var z := PlayRemoved(y, r, d, p);
    more := PlayOverwrite(z, r, d, p, q);
  }
}
