/**
 Attach and rollback of one key by a run that nobody disturbs: the whole round trip, and what
 each of the two reads after a write decides.
 */
module AttachTrip {
  import opened Wrappers
  import opened Attach
  import opened AttachPins

  // ---- the runs ----

  // A whole attach of c for d by one run, which writes `w` around its entry ...
  function AttachedRun(c: Content, d: Daemon, endpoint: nat, w: nat): Trace {
    Then(Then(Then(Then(Then(PreparedRun(c, d, endpoint), WriteConfig(0, w)), UnlockConfig(0)), VerifyPost(0)),
              SettleAttach(0)), Commit(0))
  }

  function PreparedRun(c: Content, d: Daemon, endpoint: nat): Trace {
    Then(Then(Then(Then(Then(Start(c), AcquireAttach(0, d, c, endpoint)), ReadReceipt(0)), LockConfig(0)),
              Snapshot(0)), Prepare(0))
  }

  // ... and its rollback, which writes `r` around the old one.
  function RoundTrip(c: Content, d: Daemon, endpoint: nat, w: nat, r: nat): Trace {
    Then(FinishedRun(c, d, endpoint, w, r), Confirm(0))
  }

  function FinishedRun(c: Content, d: Daemon, endpoint: nat, w: nat, r: nat): Trace {
    Then(Then(RestoredRun(c, d, endpoint, w, r), SettleRollback(0)), FinishRollback(0))
  }

  function RestoredRun(c: Content, d: Daemon, endpoint: nat, w: nat, r: nat): Trace {
    Then(Then(PendingRun(c, d, endpoint, w), Restore(0, r)), VerifyRestored(0))
  }

  function PendingRun(c: Content, d: Daemon, endpoint: nat, w: nat): Trace {
    Then(Then(BegunRun(c, d, endpoint, w), ReadRollback(0)), Pend(0))
  }

  function BegunRun(c: Content, d: Daemon, endpoint: nat, w: nat): Trace {
    Then(Then(AttachedRun(c, d, endpoint, w), Confirm(0)), AcquireRollback(0, d, 0))
  }

  // The run 0 alone: where it stands, what the config and the receipt of d are, and that the
  // snapshot of d is c.
  ghost predicate Sees(s: State, locks: Locks, config: Content, slot: Option<Receipt>, pc: Pc, d: Daemon, c: Content) {
    && s.locks == locks && s.config == config && SlotAt(s, d) == slot && At(s, 0) == pc
    && Base(d) in s.files.snaps && s.files.snaps[Base(d)] == c
  }

  function FirstReceipt(c: Content, d: Daemon, endpoint: nat): Receipt {
    Receipt(0, 0, Prepared, Base(d), c, None, endpoint)
  }

  function Later(c: Content, d: Daemon, endpoint: nat, w: nat, phase: Phase): Receipt {
    FirstReceipt(c, d, endpoint).(after := Some(Content(Http(endpoint), w)), phase := phase)
  }

  lemma PreparedAlone(c: Content, d: Daemon, endpoint: nat)
    requires c.entry.Direct?
    ensures IsRun(PreparedRun(c, d, endpoint))
    ensures var r := FirstReceipt(c, d, endpoint);
            Sees(End(PreparedRun(c, d, endpoint)), Locks(Some(0), Some(0)), c, Some(r), Pc(APrepared, r, NOTHING), d, c)
  {
    var r := FirstReceipt(c, d, endpoint);
    var x := ActOthers(Start(c), AcquireAttach(0, d, c, endpoint));
    var y := ActOpens(x, ReadReceipt(0));
    assert At(End(y), 0) == Pc(AReady, r, NOTHING) && End(y).locks == Locks(Some(0), None);
    var z := ActOpens(y, LockConfig(0));
    var v := ActOpens(z, Snapshot(0));
    assert At(End(v), 0) == Pc(ASnapped, r, NOTHING) && End(v).locks == Locks(Some(0), Some(0));
    var tr := ActOpens(v, Prepare(0));
  }

  lemma AttachedAlone(c: Content, d: Daemon, endpoint: nat, w: nat)
    requires c.entry.Direct?
    ensures IsRun(AttachedRun(c, d, endpoint, w))
    ensures var r := Later(c, d, endpoint, w, Committed);
            Sees(End(AttachedRun(c, d, endpoint, w)), Locks(None, None), Content(Http(endpoint), w), Some(r),
                 Pc(ACommitted, r, NOTHING), d, c)
  {
    PreparedAlone(c, d, endpoint);
    var x := ActCloses(PreparedRun(c, d, endpoint), WriteConfig(0, w));
    var y := ActCloses(x, UnlockConfig(0));
    assert At(End(y), 0) == Pc(APosted, FirstReceipt(c, d, endpoint), NOTHING);
    var z := ActCloses(y, VerifyPost(0));
    assert At(End(z), 0) == Pc(AVerified, Later(c, d, endpoint, w, Prepared), NOTHING);
    var v := ActCloses(z, SettleAttach(0));
    var tr := ActCloses(v, Commit(0));
  }

  lemma BegunAlone(c: Content, d: Daemon, endpoint: nat, w: nat)
    requires c.entry.Direct?
    ensures IsRun(BegunRun(c, d, endpoint, w))
    ensures Sees(End(BegunRun(c, d, endpoint, w)), Locks(Some(0), None), Content(Http(endpoint), w),
                 Some(Later(c, d, endpoint, w, Committed)), Pc(RStart, REST.rec.(leaf := Base(d)), NOTHING), d, c)
  {
    AttachedAlone(c, d, endpoint, w);
    var x := ActOthers(AttachedRun(c, d, endpoint, w), Confirm(0));
    assert At(End(x), 0) == REST;
    var y := ActOthers(x, AcquireRollback(0, d, 0));
  }

  lemma PendingAlone(c: Content, d: Daemon, endpoint: nat, w: nat)
    requires c.entry.Direct?
    ensures IsRun(PendingRun(c, d, endpoint, w))
    ensures var r := Later(c, d, endpoint, w, RollbackPending);
            Sees(End(PendingRun(c, d, endpoint, w)), Locks(Some(0), None), Content(Http(endpoint), w), Some(r),
                 Pc(RPending, r, c), d, c)
  {
    BegunAlone(c, d, endpoint, w);
    var z := ActOthers(BegunRun(c, d, endpoint, w), ReadRollback(0));
    assert At(End(z), 0) == Pc(RChecked, Later(c, d, endpoint, w, Committed), c);
    var tr := ActOthers(z, Pend(0));
  }

  lemma RestoredAlone(c: Content, d: Daemon, endpoint: nat, w: nat, r: nat)
    requires c.entry.Direct?
    ensures IsRun(RestoredRun(c, d, endpoint, w, r))
    ensures var rec := Later(c, d, endpoint, w, RollbackPending);
            Sees(End(RestoredRun(c, d, endpoint, w, r)), Locks(Some(0), None), Content(c.entry, r), Some(rec),
                 Pc(RVerified, rec, Content(c.entry, r)), d, c)
  {
    PendingAlone(c, d, endpoint, w);
    var x := ActOthers(PendingRun(c, d, endpoint, w), Restore(0, r));
    assert At(End(x), 0) == Pc(RRestored, Later(c, d, endpoint, w, RollbackPending), c);
    var y := ActOthers(x, VerifyRestored(0));
  }

  lemma FinishedAlone(c: Content, d: Daemon, endpoint: nat, w: nat, r: nat)
    requires c.entry.Direct?
    ensures IsRun(FinishedRun(c, d, endpoint, w, r))
    ensures var rec := Later(c, d, endpoint, w, RolledBack);
            Sees(End(FinishedRun(c, d, endpoint, w, r)), Locks(None, None), Content(c.entry, r), Some(rec),
                 Pc(RFinished, rec, Content(c.entry, r)), d, c)
  {
    RestoredAlone(c, d, endpoint, w, r);
    var z := ActOthers(RestoredRun(c, d, endpoint, w, r), SettleRollback(0));
    var v := ActOthers(z, FinishRollback(0));
  }

  /** Round trip: from every direct config, whatever else both writes put around the entry, an
      undisturbed attach and its rollback end with the original entry, a `rolled-back` receipt
      and nothing held. */
  lemma RollbackUndoesAttach(c: Content, d: Daemon, endpoint: nat, w: nat, r: nat)
    requires c.entry.Direct?
    ensures IsRun(RoundTrip(c, d, endpoint, w, r))
    ensures var s := End(RoundTrip(c, d, endpoint, w, r));
            && s.config == Content(c.entry, r) && s.locks == Locks(None, None) && At(s, 0) == REST
            && SlotAt(s, d) == Some(Later(c, d, endpoint, w, RolledBack))
  {
    FinishedAlone(c, d, endpoint, w, r);
    var tr := ActOthers(FinishedRun(c, d, endpoint, w, r), Confirm(0));
  }

  // ---- what the reads decide, also among others ----

  // The receipt of run p's daemon asks for recovery, and p is done.
  ghost predicate Gone(t: State, p: Agent, d: Daemon) {
    At(t, p) == REST && SlotAt(t, d).Some? && SlotAt(t, d).value.phase.RecoveryRequired?
  }

  // The read after a restore, from s to t, went on exactly if the entry it found is the one
  // the receipt has pinned, and direct.
  ghost predicate ReadRestored(s: State, t: State, p: Agent) {
    var r := Mine(s, p);
    && r.Some? && t.config == s.config
    && (if s.config.entry == r.value.before.entry && s.config.entry.Direct?
        then At(t, p).stage.RVerified? && SlotAt(t, Of(s, p)) == r else Gone(t, p, Of(s, p)))
  }

  // The read after a write went on exactly if the entry it found is the endpoint's, and then
  // took what it read as the postimage.
  ghost predicate ReadPosted(s: State, t: State, p: Agent) {
    var r := Mine(s, p);
    && r.Some? && t.config == s.config
    && (if s.config.entry == Http(r.value.endpoint) && s.config != r.value.before
        then At(t, p).stage.AVerified? && SlotAt(t, Of(s, p)) == r && At(t, p).rec.after == Some(s.config)
        else Gone(t, p, Of(s, p)))
  }

  lemma RestoredReadStep(s: State, p: Agent)
    requires Good(s) && p in s.pcs && s.pcs[p].stage.RRestored?
    ensures ReadRestored(s, DoVerifyRestored(s, p), p)
  {
    assert PcPin(s, p) && PcOk(s, p, s.pcs[p]);
  }

  lemma PostReadStep(s: State, p: Agent)
    requires Good(s) && p in s.pcs && s.pcs[p].stage.APosted?
    ensures ReadPosted(s, DoVerifyPost(s, p), p)
  {
    assert PcPin(s, p) && PcOk(s, p, s.pcs[p]);
  }

  lemma ReadSteps(s: State, p: Agent)
    ensures Enabled(s, VerifyRestored(p)) ==> p in s.pcs && s.pcs[p].stage.RRestored?
    ensures Enabled(s, VerifyPost(p)) ==> p in s.pcs && s.pcs[p].stage.APosted?
    ensures Step(s, VerifyRestored(p)) == DoVerifyRestored(s, p) && Step(s, VerifyPost(p)) == DoVerifyPost(s, p)
  {
  }

  /** The read after a restore goes on to settle exactly when the entry it finds is the one the
      receipt has pinned, and direct; otherwise the receipt asks for recovery. */
  lemma RestoredReadExactly(tr: Trace, p: Agent)
    requires Unharmed(tr) && Enabled(End(tr), VerifyRestored(p))
    ensures ReadRestored(End(tr), Step(End(tr), VerifyRestored(p)), p)
  {
    var s := End(tr);
    ReadSteps(s, p);
    assert ReadRestored(s, DoVerifyRestored(s, p), p) by {
      RunKeepsGood(tr);
      RestoredReadStep(s, p);
    }
  }

  /** The read after a write goes on to settle exactly when the entry it finds is the endpoint's,
      and then records what it read as the postimage. */
  lemma PostReadExactly(tr: Trace, p: Agent)
    requires Unharmed(tr) && Enabled(End(tr), VerifyPost(p))
    ensures ReadPosted(End(tr), Step(End(tr), VerifyPost(p)), p)
  {
    var s := End(tr);
    ReadSteps(s, p);
    assert ReadPosted(s, DoVerifyPost(s, p), p) by {
      RunKeepsGood(tr);
      PostReadStep(s, p);
    }
  }

  // ---- what a run is admitted to ----

  // The run was turned away, and nothing but its locks changed.
  ghost predicate TurnedAway(s: State, t: State, p: Agent) {
    At(t, p) == REST && t.slots == s.slots && t.config == s.config && t.files == s.files
  }

  /** An attach is admitted exactly over no receipt, or over a rolled-back one whose snapshot is
      intact and whose entry is back; only then does it get a snapshot file of its own. */
  lemma AdmissionExactly(s: State, p: Agent)
    requires Enabled(s, ReadReceipt(p))
    ensures var t, r := Step(s, ReadReceipt(p)), Mine(s, p);
            if r.None? then At(t, p).stage.AReady? && At(t, p).rec.leaf == Base(Of(s, p))
            else if r.value.phase.RolledBack? && Intact(s, r.value) && s.config.entry == r.value.before.entry then
              At(t, p).stage.AArchive? && At(t, p).rec.leaf == Op(Of(s, p), s.next)
            else TurnedAway(s, t, p)
  {
    assert Step(s, ReadReceipt(p)) == DoReadReceipt(s, p);
  }

  /** It goes on to the config exactly if that is still the planned preimage and direct. */
  lemma LockExactly(s: State, p: Agent)
    requires Enabled(s, LockConfig(p)) && s.locks.config.None?
    ensures var t := Step(s, LockConfig(p));
            if s.config == At(s, p).rec.before && s.config.entry.Direct? then
              At(t, p).stage.ALocked? && t.locks.config == Some(p)
            else TurnedAway(s, t, p)
  {
    assert Step(s, LockConfig(p)) == DoLockConfig(s, p);
  }

  // The receipt is the one the rollback names, committed, with its snapshot.
  predicate Evident(s: State, p: Agent) {
    var r := Mine(s, p);
    && r.Some? && r.value.id == At(s, p).rec.id && r.value.phase.Committed? && r.value.after.Some?
    && Intact(s, r.value) && r.value.leaf.d == Of(s, p)
  }

  /** A rollback is admitted exactly over the committed receipt it names, with an intact snapshot
      and the recorded postimage in place; a drifted config makes the receipt ask for recovery. */
  lemma RollbackAdmissionExactly(s: State, p: Agent)
    requires Enabled(s, ReadRollback(p))
    ensures var t, r := Step(s, ReadRollback(p)), Mine(s, p);
            && t.config == s.config
            && (At(t, p).stage.RChecked? <==>
                  Evident(s, p) && r.value.after == Some(s.config) && s.config.entry == Http(r.value.endpoint))
            && (!Evident(s, p) ==> TurnedAway(s, t, p))
            && (Evident(s, p) && r.value.after != Some(s.config) ==> Gone(t, p, Of(s, p)))
  {
    assert Step(s, ReadRollback(p)) == DoReadRollback(s, p);
  }

  /** A guarded migration passes exactly when every receipt of the server is rolled back. */
  lemma GuardExactly(s: State, p: Agent)
    requires Enabled(s, Scan(p))
    ensures var t := Step(s, Scan(p));
            if forall d :: SlotAt(s, d).Some? ==> SlotAt(s, d).value.phase.RolledBack? then At(t, p).stage.MGuarded?
            else TurnedAway(s, t, p)
  {
    assert Step(s, Scan(p)) == DoScan(s, p);
    assert Clear(s) <==> forall d :: SlotAt(s, d).Some? ==> SlotAt(s, d).value.phase.RolledBack? by {
      if Clear(s) {
        forall d | SlotAt(s, d).Some? ensures SlotAt(s, d).value.phase.RolledBack? { assert d in s.slots; }
      } else {
        var d :| d in s.slots && s.slots[d].Some? && !s.slots[d].value.phase.RolledBack?;
        assert SlotAt(s, d) == s.slots[d];
      }
    }
  }
}
