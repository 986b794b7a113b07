/**
 Adopt and recovery of a provider on their own: what a recovery that nobody disturbs can still
 finish, from any state a run can leave behind, and the round trip of an adopt and its teardown.
 */
module ProviderTrip {
  import opened ProviderProtocol

  // ---- what a recovery starts from ----

  // Once the teardown is under way its history is claimed or settled, and a recorded restore stands.
  predicate UnderWay(s: State) {
    && (s.row.Row? && !s.row.phase.Unstarted? ==> s.row.op.DeAdopting? && (s.marker.Claimed? || s.marker.Settled?))
    && (s.work.stage.DClaimed? || s.work.stage.DClear? || s.work.stage.DGone? || s.work.stage.DStop? ==>
          s.marker.Claimed? || s.marker.Settled?)
    && (s.work.stage.DRestored? || (s.row.Row? && s.row.phase.RestoreApplied?) ==> s.log.restored)
  }

  lemma AdoptBegun(s: State, a: Action)
    requires Inv(s) && UnderWay(s) && KindOf(a).InAdopt? && AdoptEnabled(s, a)
    ensures UnderWay(AdoptStep(s, a))
  {
  }

  lemma InstallBegun(s: State, a: Action)
    requires Inv(s) && UnderWay(s) && KindOf(a).InInstall? && InstallEnabled(s, a)
    ensures UnderWay(InstallStep(s, a))
  {
  }

  lemma ClaimBegun(s: State, a: Action)
    requires Inv(s) && UnderWay(s) && KindOf(a).InClaim? && ClaimEnabled(s, a)
    ensures UnderWay(ClaimStep(s, a))
  {
  }

  lemma RestoreBegun(s: State, a: Action)
    requires Inv(s) && UnderWay(s) && KindOf(a).InRestore? && RestoreEnabled(s, a)
    ensures UnderWay(RestoreStep(s, a))
  {
  }

  lemma OtherBegun(s: State, a: Action)
    requires Inv(s) && UnderWay(s) && KindOf(a).Elsewhere? && OtherEnabled(s, a)
    ensures UnderWay(OtherStep(s, a))
  {
  }

  lemma {:induction false} RunBegun(tr: Trace)
    requires IsRun(tr)
    ensures Inv(End(tr)) && UnderWay(End(tr))
  {
    RunKeepsInv(tr);
    if tr.Then? {
      RunBegun(tr.prev);
      var s := End(tr.prev);
      match KindOf(tr.a)
      case InAdopt => AdoptBegun(s, tr.a);
      case InInstall => InstallBegun(s, tr.a);
      case InClaim => ClaimBegun(s, tr.a);
      case InRestore => RestoreBegun(s, tr.a);
      case Elsewhere => OtherBegun(s, tr.a);
    }
  }

  // ---- recovery runs ----

  predicate Recovers(a: Action) { KindOf(a).InClaim? || KindOf(a).InRestore? || a.Crash? }

  // `more` goes on from `tr` with steps of recoveries only, which may die and start again.
  ghost predicate RecoveryFrom(tr: Trace, more: Trace) {
    more == tr || (more.Then? && Recovers(more.a) && RecoveryFrom(tr, more.prev))
  }

  // The same with its last state; in layers, so that a chain of steps is not unfolded at once.
  ghost predicate Reaches(base: Trace, tr: Trace, t: State)
    decreases tr, 2
  {
    Went(base, tr, t)
  }

  ghost predicate Went(base: Trace, tr: Trace, t: State)
    decreases tr, 1
  {
    (tr == base && t == End(base)) || Moved(base, tr, t)
  }

  ghost predicate Moved(base: Trace, tr: Trace, t: State)
    decreases tr, 0
  {
    && tr.Then? && Recovers(tr.a) && Enabled(End(tr.prev), tr.a) && Reaches(base, tr.prev, End(tr.prev))
    && t == Step(End(tr.prev), tr.a)
  }

  lemma {:induction false} ReachesIsRecovery(base: Trace, tr: Trace, t: State)
    requires IsRun(base) && Reaches(base, tr, t)
    ensures IsRun(tr) && RecoveryFrom(base, tr) && End(tr) == t
  {
    if !(tr == base && t == End(base)) {
      assert Moved(base, tr, t);
      ReachesIsRecovery(base, tr.prev, End(tr.prev));
    }
  }

  lemma {:induction false} ReachesEnd(base: Trace, tr: Trace, t: State)
    requires Reaches(base, tr, t)
    ensures End(tr) == t
  {
    if !(tr == base && t == End(base)) {
      assert Moved(base, tr, t);
    }
  }

  lemma GoClaim(base: Trace, tr: Trace, s: State, a: Action) returns (more: Trace, t: State)
    requires Reaches(base, tr, s) && KindOf(a).InClaim? && ClaimEnabled(s, a)
    ensures Reaches(base, more, t) && t == ClaimStep(s, a)
  {
    ReachesEnd(base, tr, s);
    more, t := Then(tr, a), ClaimStep(s, a);
    assert Moved(base, more, t);
  }

  lemma GoRestore(base: Trace, tr: Trace, s: State, a: Action) returns (more: Trace, t: State)
    requires Reaches(base, tr, s) && KindOf(a).InRestore? && RestoreEnabled(s, a)
    ensures Reaches(base, more, t) && t == RestoreStep(s, a)
  {
    ReachesEnd(base, tr, s);
    more, t := Then(tr, a), RestoreStep(s, a);
    assert Moved(base, more, t);
  }

  // Nobody is at work on the row, and the intent lock is free.
  predicate Dead(s: State) { s.work == REST && s.intent.Free? && s.row.Row? }

  /** What decides it: nothing once the restore is recorded; before that the manifest must not have
      been changed, and before the managed side is noted as gone or stopped, a managed row must not
      stand on a history that never started, nor a started history be left without one. */
  predicate Recoverable(s: State) {
    s.row.Row? &&
      match s.row.phase
      case RestoreApplied => true
      case StopSettled | ManagedRemoved => !s.disk.file.Other?
      case Unstarted =>
        !s.disk.file.Other? && if s.disk.managed then !s.marker.NotStarted? else !s.marker.Started?
  }

  // ---- the finishing run, stage by stage ----

  predicate At(s: State, g: Stage, p: Phase) { s.work.stage == g && s.row == Row(DeAdopting, p) }

  predicate Vouched(m: Marker) { m.Claimed? || m.Settled? }

  // The managed side is gone and noted as gone.
  predicate Gone(s: State) {
    At(s, DRemoved, ManagedRemoved) && s.intent.Free? && Vouched(s.marker) && !s.disk.managed && s.disk.file.NoFile?
  }

  // The managed side still stands in the record, with a managed row or without.
  predicate Clearing(s: State, managed: bool) {
    s.work.stage.DMarked? && Standing(s) && s.intent.Free? && !s.disk.file.Other? && s.disk.managed == managed
  }

  lemma AbsentRun(base: Trace, tr: Trace, s: State) returns (more: Trace, t: State)
    requires Reaches(base, tr, s) && Clearing(s, false) && !s.marker.Started?
    ensures Reaches(base, more, t) && Gone(t)
  {
    more, t := GoClaim(base, tr, s, SeeAbsent);
    more, t := GoClaim(base, more, t, Claim);
    more, t := GoClaim(base, more, t, SeeAgain);
    more, t := GoClaim(base, more, t, DeleteFile);
    more, t := GoClaim(base, more, t, Advance);
  }

  lemma StopRun(base: Trace, tr: Trace, s: State) returns (more: Trace, t: State)
    requires Reaches(base, tr, s) && Clearing(s, true) && !s.marker.NotStarted?
    ensures Reaches(base, more, t) && Gone(t)
  {
    more, t := GoClaim(base, tr, s, Stop);
    more, t := GoClaim(base, more, t, AdvanceStop);
    more, t := GoClaim(base, more, t, DeleteStopped);
    more, t := GoClaim(base, more, t, RemoveRow);
    more, t := GoClaim(base, more, t, AdvanceRemoved);
  }

  // A row that came late is settled and removed, and a manifest that came back is deleted again.
  lemma ResumeRun(base: Trace, tr: Trace, s: State) returns (more: Trace, t: State)
    requires Reaches(base, tr, s) && At(s, DMarked, ManagedRemoved) && s.intent.Free?
    requires Vouched(s.marker) && !s.disk.file.Other?
    ensures Reaches(base, more, t) && Gone(t)
  {
    more, t := GoRestore(base, tr, s, Resume);
    if t.disk.managed {
      more, t := GoRestore(base, more, t, Repair);
      more, t := GoRestore(base, more, t, RemoveLate);
    }
    if t.disk.file.Ours? {
      more, t := GoRestore(base, more, t, DeleteAgain);
    }
  }

  lemma RestoreRun(base: Trace, tr: Trace, s: State) returns (more: Trace, t: State)
    requires Reaches(base, tr, s) && Gone(s)
    ensures Reaches(base, more, t) && At(t, DApplied, RestoreApplied) && t.disk == Disk(NoFile, false, true)
  {
    more, t := GoRestore(base, tr, s, LockRestore);
    more, t := GoRestore(base, more, t, Vouch);
    more, t := GoRestore(base, more, t, Restore);
    more, t := GoRestore(base, more, t, AdvanceApplied);
  }

  // A recovery that has just marked its row.
  predicate Marked(s: State) {
    Inv(s) && UnderWay(s) && s.work.stage.DMarked? && s.intent.Free? && Recoverable(s)
  }

  // From the marked row to the managed side gone.
  lemma ClearRun(base: Trace, tr: Trace, s: State) returns (more: Trace, t: State)
    requires Reaches(base, tr, s) && Marked(s) && !s.row.phase.RestoreApplied?
    ensures Reaches(base, more, t) && Gone(t)
  {
    if s.row.phase.ManagedRemoved? {
      more, t := ResumeRun(base, tr, s);
    } else if s.disk.managed {
      more, t := StopRun(base, tr, s);
    } else {
      more, t := AbsentRun(base, tr, s);
    }
  }

  lemma ApplyRun(base: Trace, tr: Trace, s: State) returns (more: Trace, t: State)
    requires Reaches(base, tr, s) && Marked(s)
    ensures Reaches(base, more, t) && At(t, DApplied, RestoreApplied)
    ensures t.disk == if s.row.phase.RestoreApplied? then s.disk else Disk(NoFile, false, true)
  {
    if s.row.phase.RestoreApplied? {
      more, t := GoRestore(base, tr, s, ResumeApplied);
    } else {
      more, t := ClearRun(base, tr, s);
      more, t := RestoreRun(base, more, t);
    }
  }

  // What a finished recovery leaves.
  predicate Restored(before: State, after: State)
    requires before.row.Row?
  {
    && after.row.NoRow? && after.work.stage.DClosed? && !after.disk.managed
    && (after.disk.enabled || before.log.toggled)
    && (before.row.phase.RestoreApplied? || after.disk == Disk(NoFile, false, true))
  }

  lemma MarkRun(tr: Trace) returns (more: Trace, t: State)
    requires IsRun(tr) && Dead(End(tr)) && Recoverable(End(tr))
    ensures Reaches(tr, more, t) && Marked(t)
    ensures t.disk == End(tr).disk && t.row == Row(DeAdopting, End(tr).row.phase)
    ensures End(tr).row.phase.RestoreApplied? ==>
              !End(tr).disk.managed && (End(tr).disk.enabled || End(tr).log.toggled)
  {
    RunBegun(tr);
    assert Went(tr, tr, End(tr));
    more, t := GoClaim(tr, tr, End(tr), BeginRecovery);
    ReachesIsRecovery(tr, more, t);
    RunBegun(more);
  }

  lemma CloseRun(tr: Trace) returns (more: Trace, t: State)
    requires IsRun(tr) && Dead(End(tr)) && Recoverable(End(tr))
    ensures Reaches(tr, more, t) && Restored(End(tr), t)
  {
    more, t := MarkRun(tr);
    more, t := ApplyRun(tr, more, t);
    more, t := GoRestore(tr, more, t, CloseRow);
  }

  lemma FinishRun(tr: Trace) returns (more: Trace)
    requires IsRun(tr) && Dead(End(tr)) && Recoverable(End(tr))
    ensures IsRun(more) && RecoveryFrom(tr, more) && Restored(End(tr), End(more))
  {
    var t;
    more, t := CloseRun(tr);
    ReachesIsRecovery(tr, more, t);
  }

  // ---- the blocked recovery ----

  predicate Foreign(s: State) {
    && s.disk.file.Other? && s.row.Row? && !s.row.phase.RestoreApplied?
    && match s.work.stage
       case Nobody | DMarked | DStop | DStopped | DRemoved | DLate | DLocked | DVouched => true
       case _ => false
  }

  predicate Halfway(s: State) {
    && s.row.Row? && s.row.phase.Unstarted?
    && match s.work.stage
       case Nobody | DMarked => if s.disk.managed then s.marker.NotStarted? else s.marker.Started?
       case DSeen => !s.disk.managed && s.marker.Started?
       case _ => false
  }

  lemma ClaimStaysBlocked(s: State, a: Action)
    requires Inv(s) && KindOf(a).InClaim? && ClaimEnabled(s, a) && (Foreign(s) || Halfway(s))
    ensures Foreign(ClaimStep(s, a)) || Halfway(ClaimStep(s, a))
  {
  }

  lemma RestoreStaysBlocked(s: State, a: Action)
    requires Inv(s) && KindOf(a).InRestore? && RestoreEnabled(s, a) && (Foreign(s) || Halfway(s))
    ensures Foreign(RestoreStep(s, a)) || Halfway(RestoreStep(s, a))
  {
  }

  lemma {:induction false} BlockedForGood(tr: Trace, more: Trace)
    requires IsRun(more) && RecoveryFrom(tr, more) && (Foreign(End(tr)) || Halfway(End(tr)))
    ensures Foreign(End(more)) || Halfway(End(more))
  {
    if more != tr {
      BlockedForGood(tr, more.prev);
      RunKeepsInv(more.prev);
      match KindOf(more.a)
      case InClaim => ClaimStaysBlocked(End(more.prev), more.a);
      case InRestore => RestoreStaysBlocked(End(more.prev), more.a);
      case _ =>
    }
  }

  /** From every state a run can leave behind with nobody at work, recoveries alone can close the
      row if and only if it is recoverable, and then with the provider on, the managed row and the
      manifest gone; otherwise no number of attempts closes it. */
  lemma RecoveryExactly(tr: Trace)
    requires IsRun(tr) && Dead(End(tr))
    ensures Recoverable(End(tr)) ==>
              exists more :: IsRun(more) && RecoveryFrom(tr, more) && Restored(End(tr), End(more))
    ensures !Recoverable(End(tr)) ==> forall more :: IsRun(more) && RecoveryFrom(tr, more) ==> End(more).row.Row?
  {
    if Recoverable(End(tr)) {
      var more := FinishRun(tr);
    } else {
      assert Foreign(End(tr)) || Halfway(End(tr)) by { RunBegun(tr); }
      forall more | IsRun(more) && RecoveryFrom(tr, more) ensures End(more).row.Row? {
        BlockedForGood(tr, more);
      }
    }
  }

  // ---- a failed install, its history, and what that leaves to a recovery ----

  // An adopt's install that has the way free, on a history that never started.
  predicate Ready(s: State) {
    s.work.stage.IReady? && s.intent.Free? && Is(s, Adopting) && s.marker.NotStarted?
  }

  lemma BarrierRun(tr: Trace) returns (more: Trace)
    requires IsRun(tr) && Ready(End(tr))
    ensures IsRun(more)
    ensures var s, t := End(tr), End(more);
            && t.work == s.work.(stage := IPast, flag := !s.disk.managed, had := s.disk.managed)
            && t.marker.Started? && t.row == s.row && t.disk == s.disk && t.intent.ByHolder?
  {
    more := ActInstall(tr, LockIntent);
    more := ActInstall(more, Barrier);
  }

  lemma UnpublishedRun(tr: Trace) returns (more: Trace)
    requires IsRun(tr) && Ready(End(tr)) && !End(tr).disk.managed
    ensures IsRun(more) && End(more).marker.Settled? && End(more).intent.Free? && End(more).row == End(tr).row
    ensures End(more).disk == End(tr).disk && End(more).work.stage.IEnd?
  {
    more := BarrierRun(tr);
    more := ActInstall(more, FailUnpublished);
    more := ActInstall(more, SettleMarker);
  }

  /** An install that fails before it publishes settles its history, and whoever comes next can
      recover the provider. */
  lemma UnpublishedIsRecoverable(tr: Trace) returns (more: Trace)
    requires IsRun(tr) && Ready(End(tr)) && !End(tr).disk.managed && !End(tr).disk.file.Other?
    requires End(tr).row.phase.Unstarted?
    ensures IsRun(more) && Dead(End(more)) && Recoverable(End(more)) && End(more).disk == End(tr).disk
  {
    more := UnpublishedRun(tr);
    more := ActOther(more, Crash);
  }

  lemma UndoneRun(tr: Trace, ok: bool) returns (more: Trace)
    requires IsRun(tr) && Ready(End(tr))
    ensures IsRun(more) && End(more).marker.Started? && End(more).intent.Free? && End(more).row == End(tr).row
    ensures End(more).disk.file == End(tr).disk.file && End(more).disk.managed == (!ok || End(tr).disk.managed)
    ensures End(more).work.stage.IEnd? && !End(more).work.flag
  {
    more := BarrierRun(tr);
    more := ActInstall(more, Publish);
    more := ActInstall(more, Undo(ok));
  }

  /** One that fails after it published keeps a started history: it can be recovered exactly while
      the managed row is still there, that is, exactly when the publication was not taken back. */
  lemma UndoneIsBlocked(tr: Trace, ok: bool) returns (more: Trace)
    requires IsRun(tr) && Ready(End(tr)) && !End(tr).disk.file.Other? && End(tr).row.phase.Unstarted?
    ensures IsRun(more) && Dead(End(more))
    ensures Recoverable(End(more)) <==> !ok || End(tr).disk.managed
  {
    more := UndoneRun(tr, ok);
    more := ActOther(more, Crash);
  }

  /** A dry probe before the install leaves row and history as they were. */
  lemma ProbeLeavesHistory(tr: Trace) returns (more: Trace)
    requires IsRun(tr) && End(tr).work.stage.IStart? && Passes(End(tr))
    ensures IsRun(more) && End(more).work.stage.IReady?
    ensures End(more).row == End(tr).row && End(more).marker == End(tr).marker && End(more).disk == End(tr).disk
  {
    more := ActInstall(tr, Admit);
    more := ActInstall(more, SettleBack);
  }

  // ---- the history never moves back ----

  // A settled history stays until it is dropped with its row, and a claimed one is at most settled.
  predicate Onward(s: State, t: State) {
    && (s.marker.Settled? ==> t.marker.Settled? || (t.marker.Missing? && t.row.NoRow?))
    && (s.marker.Claimed? ==> t.marker.Claimed? || t.marker.Settled? || (t.marker.Missing? && t.row.NoRow?))
  }

  lemma AdoptOnward(s: State, a: Action)
    requires Inv(s) && KindOf(a).InAdopt? && AdoptEnabled(s, a)
    ensures Onward(s, AdoptStep(s, a))
  {
  }

  lemma InstallOnward(s: State, a: Action)
    requires Inv(s) && KindOf(a).InInstall? && InstallEnabled(s, a)
    ensures Onward(s, InstallStep(s, a))
  {
  }

  lemma ClaimOnward(s: State, a: Action)
    requires Inv(s) && KindOf(a).InClaim? && ClaimEnabled(s, a)
    ensures Onward(s, ClaimStep(s, a))
  {
  }

  lemma RestoreOnward(s: State, a: Action)
    requires Inv(s) && KindOf(a).InRestore? && RestoreEnabled(s, a)
    ensures Onward(s, RestoreStep(s, a))
  {
  }

  lemma OtherOnward(s: State, a: Action)
    requires Inv(s) && KindOf(a).Elsewhere? && OtherEnabled(s, a)
    ensures Onward(s, OtherStep(s, a))
  {
  }

  /** In every run a claimed history is only ever settled, and a settled one only dropped, with no
      row left. */
  lemma HistoryIsFinal(tr: Trace, a: Action)
    requires IsRun(tr) && Enabled(End(tr), a)
    ensures Onward(End(tr), Step(End(tr), a))
  {
    RunKeepsInv(tr);
    var s := End(tr);
    match KindOf(a)
    case InAdopt => AdoptOnward(s, a);
    case InInstall => InstallOnward(s, a);
    case InClaim => ClaimOnward(s, a);
    case InRestore => RestoreOnward(s, a);
    case Elsewhere => OtherOnward(s, a);
  }

  // ---- the round trip ----

  lemma ReadyRun() returns (tr: Trace)
    ensures IsRun(tr)
    ensures End(tr) == State(Row(Adopting, Unstarted), NotStarted, Disk(Ours, false, false), Free,
                             Work(IReady, true, true, false), Log(false, false, false, false))
  {
    tr := PlayOff();
    tr := ActAdopt(tr, CreateFile);
    tr := ActInstall(tr, BeginInstall);
    tr := ActInstall(tr, Admit);
    tr := ActInstall(tr, SettleBack);
  }

  /** An adopt on its own ends adopted, with the provider off and its managed row published. */
  lemma AdoptCompletes() returns (tr: Trace)
    ensures IsRun(tr)
    ensures End(tr) == State(Row(Adopted, Unstarted), Started, Disk(Ours, true, false), Free, REST,
                             Log(false, false, false, false))
  {
    tr := ReadyRun();
    tr := ActInstall(tr, LockIntent);
    tr := ActInstall(tr, Barrier);
    tr := ActInstall(tr, Publish);
    tr := ActInstall(tr, Win);
    tr := ActAdopt(tr, Promote);
  }

  /** The teardown of that adopt puts back everything it moved, the history included. */
  lemma TeardownUndoesAdopt() returns (tr: Trace)
    ensures IsRun(tr) && End(tr).disk == Init(NoFile, true).disk && End(tr).row == Init(NoFile, true).row
    ensures End(tr).marker == Init(NoFile, true).marker && End(tr).work == REST
  {
    var adopted := AdoptCompletes();
    tr := FinishRun(adopted);
    tr := ActAdopt(tr, DropMarker);
  }

  /** An adopted provider whose managed row was uninstalled cannot be torn down again: its history
      is started and there is no row left to stop. */
  lemma UninstalledIsBlocked() returns (tr: Trace)
    ensures IsRun(tr) && Dead(End(tr)) && Is(End(tr), Adopted) && !End(tr).disk.enabled
    ensures forall more :: IsRun(more) && RecoveryFrom(tr, more) ==> End(more).row.Row?
  {
    tr := AdoptCompletes();
    tr := ActOther(tr, Uninstall);
    RecoveryExactly(tr);
  }
}
