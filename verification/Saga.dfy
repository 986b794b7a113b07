/**
 The adopt saga: capture, provider disable, secrets, manifest, install, promote, and the
 compensation of each failure. Every durable step can succeed, fail, fail although it took
 effect, or be the last thing the process does; after a crash nothing more happens.
 */
module Saga {

  datatype Outcome = Done | FailBefore | FailAfter | CrashBefore | CrashAfter

  datatype Step =
    | WriteRow | WriteSnapshots | FinishRow
    | DisableProvider | MarkDisabled | RestoreNow | RestoreLater
    | StoreKeys | CreateManifest | MarkInstall | Install | Promote | MarkDeAdopting
    | DropSnapshots | DropRow | DropManifest | DropKeys
    | ClaimHistory | RecoverManifest | NoteRemoved | RestoreGuarded | NoteApplied | RecoverKeys
    | CloseSnapshots | CloseRow

  datatype Row = NoRow | Adopting | Adopted | DeAdopting
  datatype Manifest = NoManifest | Ours | Other
  datatype Keys = NoKeys | SomeKeys | AllKeys

  // The durable install history of a provider row, and how far its teardown got.
  datatype Marker = Missing | NotStarted | Started | Claimed | Settled
  datatype Phase = Unstarted | ManagedRemoved | RestoreApplied

  // What opts.install reports; all but CleanFailure may leave a client on the hub entry.
  datatype Installing = Installed | CommittedUnverified | ForwardCommitted | RollbackIncomplete | CleanFailure

  datatype Env = Env(
    provider: bool,                 // the plan takes over a provider entry
    routes: bool,                   // the plan has routed secret keys
    outcome: Step -> Outcome,
    capturable: bool,               // an existing row is a reapable orphan
    observedClear: bool,            // the provider's processes are provably gone
    stillDisabled: bool,            // the provider entry is unchanged after the disable
    rootResolves: bool,             // the manifest root can be resolved
    installing: Installing,
    leftKeys: Keys,                 // what a failed store leaves in the vault
    keptKeys: Keys,                 // what a failed removal leaves in the vault
    publishes: bool,                // install published the managed daemon row
    history: Marker,                // the install history after a failed install
    historyReads: bool,             // it can be read, and no lock release was left unconfirmed
    inventory: bool,                // row and provider entry are the recorded ones, and the intent lock is free
    bindingsClear: bool,            // no client is found on the hub entry
    verifies: bool,                 // the checks between install and promotion pass
    received: bool)                 // the check of the receiving clients after promotion passes

  class Adoption {
    const env: Env
    var row: Row
    var snaps: bool
    var manifest: Manifest
    var keys: Keys
    var bound: bool           // this run may have left a client on the hub entry
    var enabled: bool         // the provider's own activation
    var managed: bool         // a managed daemon row exists
    var marker: Marker
    var phase: Phase
    var installCalled: bool
    var cut: bool             // routed keys were removed under an existing manifest
    var alive: bool

    constructor (e: Env, r: Row, s: bool, m: Manifest, k: Keys, on: bool, owned: bool)
      ensures env == e && row == r && snaps == s && manifest == m && keys == k && enabled == on && managed == owned
      ensures !bound && !installCalled && !cut && alive
    {
      env, row, snaps, manifest, keys, enabled, managed := e, r, s, m, k, on, owned;
      bound, installCalled, cut, alive := false, false, false, true;
      marker, phase := if r.NoRow? then Missing else NotStarted, Unstarted;
    }

    // ---- one durable step ----

    method Try(s: Step) returns (ok: bool, landed: bool)
      modifies this`alive
      ensures ok == (old(alive) && env.outcome(s).Done?)
      ensures landed == (old(alive) && !env.outcome(s).FailBefore? && !env.outcome(s).CrashBefore?)
      ensures alive == (old(alive) && !env.outcome(s).CrashBefore? && !env.outcome(s).CrashAfter?)
    {
      if !alive {
        return false, false;
      }
      match env.outcome(s) {
        case Done => return true, true;
        case FailBefore => return false, false;
        case FailAfter => return false, true;
        case CrashBefore => alive := false; return false, false;
        case CrashAfter => alive := false; return false, true;
      }
    }

    // Everything a client on the hub entry needs to be put back.
    ghost predicate Restorable()
      reads this
    {
      !row.NoRow? && snaps && manifest.Ours? && (env.routes ==> keys.AllKeys?)
    }

    ghost predicate Safe()
      reads this
    {
      (bound ==> Restorable()) && (env.provider && enabled ==> !managed) && (snaps ==> !row.NoRow?)
    }

    // ---- provenance ----

    method Abort() returns (ok: bool)
      modifies this`snaps, this`row, this`marker, this`alive
      ensures ok <==> old(alive) && Works(env, DropSnapshots) && Works(env, DropRow)
      ensures ok ==> alive
      ensures snaps == (old(snaps) && !(old(alive) && Lands(env, DropSnapshots)))
      ensures row == if old(alive) && Works(env, DropSnapshots) && Lands(env, DropRow) then NoRow else old(row)
      ensures alive ==> old(alive)
    {
      var landed;
      ok, landed := Try(DropSnapshots);
      if landed {
        snaps := false;
      }
      if !ok {
        return;
      }
      ok, landed := Try(DropRow);
      if landed {
        row, marker := NoRow, Missing;
      }
    }

    method Capture() returns (ok: bool)
      requires Safe() && !bound
      modifies this`snaps, this`row, this`marker, this`alive
      ensures Safe() && (ok ==> row.Adopting? && snaps && alive)
      ensures alive && !ok && old(row).NoRow? && CleanUpWorks(env) && !env.outcome(WriteRow).FailAfter? ==> row.NoRow?
      ensures !Replaceable(env, old(row)) ==> !ok && row == old(row) && snaps == old(snaps)
      ensures ok <==>
                old(alive) && Replaceable(env, old(row)) && Works(env, WriteRow) && Works(env, WriteSnapshots)
                && Works(env, FinishRow)
      ensures old(alive) && Replaceable(env, old(row)) && Lands(env, WriteRow) && snaps ==> Lands(env, WriteSnapshots)
      ensures alive ==> old(alive)
    {
      if !Replaceable(env, row) {
        return false;
      }
      var landed;
      ok, landed := Try(WriteRow);
      if landed {
        row, snaps, marker := Adopting, false, NotStarted;
      }
      if !ok {
        return;
      }
      ok, landed := Try(WriteSnapshots);
      if landed {
        snaps := true;
      }
      if !ok {
        var _ := Abort();
        return false;
      }
      ok, landed := Try(FinishRow);
      if !ok {
        var _ := Abort();
        return false;
      }
    }

    // ---- the provider ----

    // The compare-and-set back to the recorded activation.
    method Restore(s: Step) returns (ok: bool)
      requires Safe() && (alive ==> !managed)
      modifies this`enabled, this`alive
      ensures Safe() && (ok ==> enabled && alive) && (old(alive) && env.outcome(s).Done? ==> ok)
      ensures old(enabled) ==> enabled
      ensures !old(alive) ==> enabled == old(enabled)
      ensures alive ==> old(alive)
    {
      var landed;
      ok, landed := Try(s);
      if landed {
        enabled := true;
      }
    }

    // A disable that fails does so before its effect, and a provider found running is put back.
    ghost predicate PutsBack(env: Env) {
      env.outcome(RestoreNow).Done? && !env.outcome(DisableProvider).FailAfter?
    }

    // ok: the provider is off, its processes are gone, and the disable is recorded.
    method TakeProvider() returns (ok: bool, disabled: bool)
      requires Safe() && !bound && env.provider
      modifies this`enabled, this`alive, this`row, this`snaps, this`marker
      ensures Safe() && !bound
      ensures ok ==> disabled && !enabled && !managed && alive && row == old(row) && snaps == old(snaps)
      ensures disabled ==> !managed
      ensures alive && !ok && !disabled && old(enabled) && PutsBack(env) ==> enabled
      ensures alive && !ok && !disabled && old(enabled && alive) && Works(env, DisableProvider) && CleanUpWorks(env) ==>
                enabled && row.NoRow? && !snaps
      ensures !enabled ==> row == old(row) && snaps == old(snaps)
      ensures ok <==>
                old(alive && enabled) && Works(env, DisableProvider) && Works(env, MarkDisabled)
                && env.observedClear && env.stillDisabled
      ensures alive ==> old(alive)
    {
      disabled := false;
      if !enabled {
        return false, false;   // the compare-and-set finds another activation
      }
      var landed;
      ok, landed := Try(DisableProvider);
      if landed {
        enabled := false;
      }
      if !ok {
        return;
      }
      disabled := true;
      ok, landed := Try(MarkDisabled);
      if !ok {
        return;
      }
      if !env.observedClear || !env.stillDisabled {
        ok := Restore(RestoreNow);
        if !ok {
          return;
        }
        disabled := false;
        var _ := Abort();
        return false, false;
      }
    }

    // ---- secrets and manifest ----

    method StoreSecrets() returns (ok: bool)
      requires !bound
      modifies this`keys, this`alive
      ensures (ok <==> old(alive) && (env.routes ==> Works(env, StoreKeys))) && (ok ==> alive)
      ensures env.routes ==>
                keys == if ok then AllKeys else if old(alive) && Lands(env, StoreKeys) then env.leftKeys else old(keys)
      ensures !env.routes ==> ok == old(alive) && keys == old(keys) && alive == old(alive)
      ensures alive ==> old(alive)
    {
      if !env.routes {
        return alive;
      }
      var landed;
      ok, landed := Try(StoreKeys);
      if ok {
        keys := AllKeys;
      } else if landed {
        keys := env.leftKeys;
      }
    }

    method RemoveKeys() returns (ok: bool)
      requires !bound
      modifies this`keys, this`alive, this`cut
      ensures env.routes ==>
                keys == if ok then NoKeys else if KeysTouched(old(alive)) then env.keptKeys else old(keys)
      ensures !env.routes ==> keys == old(keys) && cut == old(cut) && ok == old(alive) && alive == old(alive)
      ensures cut == (old(cut) || (KeysTouched(old(alive)) && !manifest.NoManifest?))
      ensures (ok <==> old(alive) && (env.routes ==> Works(env, DropKeys))) && (ok ==> alive)
      ensures alive ==> old(alive)
    {
      if !env.routes {
        return alive;
      }
      var landed;
      ok, landed := Try(DropKeys);
      if landed {
        cut := cut || !manifest.NoManifest?;
        keys := if ok then NoKeys else env.keptKeys;
      }
    }

    // The removal of the routed keys takes effect when it is reached.
    ghost predicate KeysTouched(reached: bool) {
      reached && env.routes && Lands(env, DropKeys)
    }

    method WriteManifest() returns (ok: bool)
      requires !bound
      modifies this`manifest, this`alive
      ensures ok ==> manifest.Ours? && alive && old(manifest).NoManifest?
      ensures old(alive) && Creates(env, old(manifest)) ==> ok
      ensures manifest == old(manifest) || (old(manifest).NoManifest? && manifest.Ours?)
      ensures !ok && alive ==>
                (manifest.NoManifest? <==> old(manifest).NoManifest? && env.outcome(CreateManifest).FailBefore?)
      ensures old(alive) ==> (alive && !ok <==> !old(manifest).NoManifest? || env.outcome(CreateManifest).FailBefore? ||
                                                env.outcome(CreateManifest).FailAfter?)
      ensures !old(alive) ==> manifest == old(manifest)
      ensures alive ==> old(alive)
    {
      if !manifest.NoManifest? {
        return false;
      }
      var landed;
      ok, landed := Try(CreateManifest);
      if landed {
        manifest := Ours;
      }
    }

    // ---- install ----

    // The recovery of a provider row whose install never got under way, or was rolled back
    // without publishing: claim the history, delete the exact manifest, note the managed side as
    // gone, switch the provider on under the intent lock, remove the keys, close the row.
    method Claim() returns (ok: bool)
      requires Safe() && env.provider && !bound && row.DeAdopting? && !enabled
      modifies this`marker, this`manifest, this`phase, this`alive
      ensures Safe()
      ensures ok ==> alive && !managed && manifest.NoManifest? && phase.ManagedRemoved?
      ensures ok ==> marker.Claimed? || marker.Settled?
      ensures old(marker).Started? || managed || old(manifest).Other? ==>
                !ok && marker == old(marker) && manifest == old(manifest) && phase == old(phase)
      ensures manifest == old(manifest) || manifest.NoManifest?
      ensures ok <==>
                && old(alive) && !managed && !old(manifest).Other? && !old(marker).Started?
                && (!old(marker).Settled? ==> Works(env, ClaimHistory))
                && (old(manifest).Ours? ==> Works(env, RecoverManifest)) && Works(env, NoteRemoved)
      ensures old(marker).Settled? ==> marker.Settled?
      ensures alive ==> old(alive)
    {
      if managed || manifest.Other? || marker.Started? {
        return false;
      }
      var landed;
      if !marker.Settled? {
        ok, landed := Try(ClaimHistory);
        if landed {
          marker := Claimed;
        }
        if !ok {
          return;
        }
      }
      if manifest.Ours? {
        ok, landed := Try(RecoverManifest);
        if landed {
          manifest := NoManifest;
        }
        if !ok {
          return;
        }
      }
      ok, landed := Try(NoteRemoved);
      if landed {
        phase := ManagedRemoved;
      }
    }

    method SwitchOn() returns (ok: bool)
      requires Safe() && env.provider && !bound && row.DeAdopting? && !managed && manifest.NoManifest?
               && phase.ManagedRemoved?
      requires marker.Claimed? || marker.Settled?
      modifies this`enabled, this`phase, this`alive
      ensures Safe() && (ok ==> alive && enabled && phase.RestoreApplied?)
      ensures ok <==>
                && old(alive) && env.inventory && (marker.Settled? ==> env.bindingsClear)
                && Works(env, RestoreGuarded) && Works(env, NoteApplied)
      ensures !(env.inventory && (marker.Settled? ==> env.bindingsClear)) ==> enabled == old(enabled)
      ensures alive ==> old(alive)
    {
      // With the managed side noted as gone, a claimed history needs no look at the clients.
      if !env.inventory || (marker.Settled? && !env.bindingsClear) {
        return false;
      }
      var landed;
      ok, landed := Try(RestoreGuarded);
      if landed {
        enabled := true;
      }
      if !ok {
        return;
      }
      ok, landed := Try(NoteApplied);
      if landed {
        phase := RestoreApplied;
      }
    }

    method Close() returns (ok: bool)
      requires Safe() && env.provider && !bound && row.DeAdopting? && manifest.NoManifest? && phase.RestoreApplied?
      modifies this`keys, this`snaps, this`row, this`marker, this`alive
      ensures Safe() && (ok ==> Pristine() && marker.Missing?)
      ensures row == old(row) || row.NoRow?
      ensures ok <==>
                && old(alive) && (env.routes ==> Works(env, RecoverKeys))
                && Works(env, CloseSnapshots) && Works(env, CloseRow)
      ensures ok ==> alive
      ensures alive ==> old(alive)
    {
      var landed;
      if env.routes {
        ok, landed := Try(RecoverKeys);
        if landed {
          keys := if ok then NoKeys else env.keptKeys;
        }
        if !ok {
          return;
        }
      }
      ok, landed := Try(CloseSnapshots);
      if landed {
        snaps := false;
      }
      if !ok {
        return;
      }
      ok, landed := Try(CloseRow);
      if landed {
        row, marker := NoRow, Missing;
      }
    }

    method Recover() returns (ok: bool)
      requires Safe() && env.provider && !bound && row.DeAdopting? && !enabled
      modifies this`marker, this`manifest, this`phase, this`enabled, this`keys, this`snaps, this`row, this`alive
      ensures Safe() && (ok ==> enabled && Pristine())
      ensures !enabled ==> row == old(row) && snaps == old(snaps)
      ensures enabled || keys != old(keys) ==> !managed && manifest.NoManifest?
      ensures old(marker).Started? || managed || old(manifest).Other? ==>
                !ok && !enabled && marker == old(marker) && manifest == old(manifest) && keys == old(keys)
                && snaps == old(snaps) && row == old(row)
      ensures old(alive) && RecoveryWorks(env) && !managed && old(manifest).Ours? && !old(marker).Started? ==>
                ok && alive && enabled && Pristine()
      ensures alive ==> old(alive)
    {
      ok := Claim();
      if !ok {
        return;
      }
      ok := SwitchOn();
      if !ok {
        return;
      }
      ok := Close();
    }

    // A provider install that failed cleanly: preserved while its history is started or
    // unreadable, else handed to the recovery.
    method FailProvider()
      requires Safe() && env.provider && !enabled && manifest.Ours? && !bound && row.Adopting? && snaps
      modifies this`row, this`marker, this`manifest, this`phase, this`enabled, this`keys, this`snaps, this`alive
      ensures Safe() && (!enabled ==> !row.NoRow? && snaps)
      ensures !env.historyReads || old(marker).Started? ==> Untouched(old(row), old(snaps), old(manifest), old(keys))
      ensures enabled || keys != old(keys) ==>
                !managed && manifest.NoManifest? && env.historyReads && !old(marker).Started?
      ensures old(alive) && RecoveryWorks(env) && env.historyReads && !managed && !old(marker).Started? ==>
                alive && enabled && Pristine()
      ensures alive ==> old(alive)
    {
      if !env.historyReads || marker.Started? {
        return;
      }
      var ok, landed := Try(MarkDeAdopting);
      if landed {
        row := DeAdopting;
      }
      if ok {
        var _ := Recover();
      }
    }

    ghost predicate Untouched(r: Row, s: bool, m: Manifest, k: Keys)
      reads this
    {
      row == r && snaps == s && manifest == m && keys == k && !enabled
    }

    // A failed install that changed no client: drop row, manifest, and then the keys.
    method Compensate()
      requires Safe() && !bound && manifest.Ours?
      modifies this`row, this`snaps, this`marker, this`manifest, this`keys, this`cut, this`alive
      ensures Safe() && cut == old(cut)
      ensures old(alive) && CleanUpWorks(env) ==> Pristine()
      ensures keys != old(keys) ==> manifest.NoManifest?
      ensures alive ==> old(alive)
    {
      var _ := Abort();
      var ok, landed := Try(DropManifest);
      if landed {
        manifest := NoManifest;
      }
      if !ok {
        return;
      }
      var _ := RemoveKeys();
    }

    // A provider that is off has its row and snapshots, so that somebody can switch it on again.
    ghost predicate Recorded()
      reads this
    {
      env.provider && !enabled ==> !row.NoRow? && snaps
    }

    // Everything is still there for a later recovery, and the provider is off.
    ghost predicate Kept()
      reads this
    {
      row.Adopting? && snaps && manifest.Ours? && (env.routes ==> keys.AllKeys?) && !enabled
    }

    ghost predicate Pristine()
      reads this
    {
      row.NoRow? && !snaps && manifest.NoManifest? && (env.routes ==> keys.NoKeys?)
    }

    method RunInstall() returns (ok: bool, managedInstalled: bool)
      requires Safe() && !bound && row.Adopting? && Restorable() && (env.provider ==> !enabled)
      modifies this`row, this`snaps, this`manifest, this`keys, this`cut, this`alive, this`bound, this`managed
      modifies this`installCalled
      modifies this`marker, this`phase, this`enabled
      ensures Safe() && cut == old(cut) && Recorded()
      ensures ok ==> alive && bound && row.Adopting? && Restorable()
      ensures (env.provider && alive ==> managedInstalled) && (managedInstalled ==> installCalled)
      ensures alive && env.installing.CleanFailure? && !env.provider && CleanUpWorks(env) ==> Pristine()
      ensures env.provider && enabled ==> Rolled(env) && manifest.NoManifest?
      ensures env.provider && env.installing.CleanFailure? && !Rolled(env) ==>
                Untouched(old(row), old(snaps), old(manifest), old(keys))
      ensures env.provider && alive && Rolled(env) && RecoveryWorks(env) && !old(managed) ==> enabled && Pristine()
      ensures bound ==> !env.installing.CleanFailure? || !alive
      ensures alive ==> (ok <==> env.installing.Installed?)
      ensures alive && !env.installing.CleanFailure? ==> marker.Started?
      ensures alive && !env.installing.CleanFailure? ==>
                && bound && row == old(row) && snaps == old(snaps) && manifest == old(manifest) && keys == old(keys)
                && enabled == old(enabled)
      ensures old(alive) && env.outcome(Install).Done? && !env.installing.CleanFailure? ==> alive
      ensures installCalled == (old(installCalled) || old(alive))
      ensures alive ==> old(alive)
    {
      ok, managedInstalled := false, false;
      if !alive {
        return;
      }
      installCalled := true;
      var _, landed := Try(Install);
      if !alive {
        bound := landed;
        if landed {
          managed, marker := env.publishes, Started;
        }
        return;
      }
      bound := !env.installing.CleanFailure?;
      if env.installing.CleanFailure? {
        marker := env.history;
      } else {
        marker := Started;
      }
      // Only an install with started history has ever tried to publish.
      if marker.Started? {
        managed := env.publishes;
      }
      managedInstalled := env.provider;
      match env.installing {
        case Installed =>
          ok := true;
        case CommittedUnverified =>
        case ForwardCommitted =>
        case RollbackIncomplete =>
        case CleanFailure =>
          if env.provider {
            FailProvider();
          } else {
            Compensate();
          }
      }
    }

    // ---- the transaction ----

    // Up to the install: secrets, then the manifest.
    method Prepare() returns (ok: bool)
      requires Safe() && !bound && row.Adopting? && snaps
      modifies this`row, this`snaps, this`marker, this`manifest, this`keys, this`cut, this`alive
      ensures Safe() && (ok ==> alive && row.Adopting? && snaps && Restorable() && cut == old(cut))
      ensures alive && !ok && !env.provider && env.rootResolves && CleanUpWorks(env) ==> row.NoRow? && !snaps
      ensures env.provider ==> row == old(row) && snaps == old(snaps)
      ensures cut ==> old(cut) || CutCause(env, old(manifest))
      ensures old(alive) && Calm(env) && env.rootResolves && CutCause(env, old(manifest)) ==>
                && !ok && alive && cut && keys.NoKeys? && manifest == Found(old(manifest))
                && (!env.provider ==> row.NoRow?)
      ensures !env.rootResolves ==> !ok
      ensures old(alive) && Calm(env) && env.rootResolves && Creates(env, old(manifest)) ==> ok
      ensures old(alive) && Calm(env) && !env.rootResolves ==> row.Adopting? && snaps && (env.routes ==> keys.AllKeys?)
      ensures alive ==> old(alive)
    {
      ok := StoreSecrets();
      if !ok {
        if !env.provider {
          var _ := Abort();
        }
        return;
      }
      if !env.rootResolves {
        return false;   // nothing is compensated here
      }
      ok := WriteManifest();
      if !ok {
        if !env.provider {
          var _ := Abort();
        }
        var _ := RemoveKeys();
        return false;
      }
    }

    // Install and, if it worked, the checks and the promotion.
    method Finish() returns (ok: bool, managedInstalled: bool)
      requires Safe() && alive && !bound && !installCalled && row.Adopting? && Restorable()
      requires env.provider ==> !enabled && !managed
      modifies this
      ensures Safe() && cut == old(cut) && Recorded() && (ok ==> alive && bound && row.Adopted? && Restorable())
      ensures installCalled && (env.provider && alive ==> managedInstalled)
      ensures AfterInstall() && (alive ==> Concluded(ok))
      ensures Calm(env) && !env.installing.CleanFailure? ==> alive
    {
      ok, managedInstalled := RunInstall();
      if !ok {
        return;
      }
      if !env.verifies {
        return false, managedInstalled;
      }
      var landed;
      ok, landed := Try(Promote);
      if landed {
        row := Adopted;
      }
      ok := ok && env.received;
    }

    // What a run that was not cut short makes of an install: success is reported exactly if it
    // installed and every check and the promotion worked; whatever is not a clean failure keeps
    // everything, and the row is promoted exactly by an install that verified.
    ghost predicate Concluded(ok: bool)
      reads this
    {
      && (ok <==> env.installing.Installed? && env.verifies && env.outcome(Promote).Done? && env.received)
      && (!env.installing.CleanFailure? ==>
            && bound && Restorable() && (env.provider ==> !enabled)
            && row == if env.installing.Installed? && env.verifies && !env.outcome(Promote).FailBefore? then Adopted
                      else Adopting)
    }

    // What a run whose install was called ends with.
    ghost predicate AfterInstall()
      reads this
    {
      && (env.provider && enabled ==> Rolled(env) && manifest.NoManifest?)
      && (alive && env.installing.CleanFailure? && !env.provider && CleanUpWorks(env) ==> Pristine())
      && (alive && env.installing.CleanFailure? && env.provider && !Rolled(env) ==> Kept())
      && (alive && env.provider && Rolled(env) && RecoveryWorks(env) ==> enabled && Pristine())
    }

    method Transaction() returns (ok: bool, disabled: bool, managedInstalled: bool)
      requires Safe() && alive && !bound && !installCalled && !cut
      modifies this
      ensures Safe() && (old(enabled) ==> Recorded()) && (ok ==> alive && bound && row.Adopted? && Restorable())
      ensures installCalled ==> AfterInstall() && (env.provider && alive ==> managedInstalled)
      ensures managedInstalled || ok ==> installCalled
      ensures disabled ==> env.provider && (!installCalled ==> !managed && !bound)
      ensures PreInstall(env, old(row), ok, installCalled) && alive && !env.provider && env.rootResolves ==>
                row.NoRow? && !snaps
      ensures env.provider && alive && !installCalled && !disabled && old(enabled) && ReEnables(env) ==> enabled
      ensures env.provider && alive && !installCalled && !disabled && old(enabled) && TakesBack(env, old(row)) ==>
                enabled && row.NoRow? && !snaps
      ensures cut ==> CutCause(env, old(manifest))
      ensures Smooth(env, old(row), old(enabled)) && env.rootResolves && CutCause(env, old(manifest)) ==>
                cut && Deserted(old(manifest))
      ensures Smooth(env, old(row), old(enabled)) && !env.rootResolves ==> !installCalled && Uncompensated()
      ensures installCalled && alive ==> Concluded(ok)
      ensures Smooth(env, old(row), old(enabled)) && env.rootResolves && Creates(env, old(manifest)) ==>
                installCalled && (!env.installing.CleanFailure? ==> alive)
    {
      disabled, managedInstalled := false, false;
      ok := Capture();
      if !ok {
        return;
      }
      if env.provider {
        ok, disabled := TakeProvider();
        if !ok {
          return;
        }
      }
      ok := Prepare();
      if !ok {
        return;
      }
      if env.provider {
        var noted;
        ok, noted := Try(MarkInstall);
        if !ok {
          return;
        }
      }
      ok, managedInstalled := Finish();
    }

    // The keys are gone and a manifest is there.
    ghost predicate Deserted(before: Manifest)
      reads this
    {
      alive && !installCalled && keys.NoKeys? && manifest == Found(before) && (!env.provider ==> row.NoRow?)
    }

    ghost predicate Uncompensated()
      reads this
    {
      row.Adopting? && snaps && (env.routes ==> keys.AllKeys?)
    }

    /** The whole run, with the raw restore of a provider whose install was never called. */
    method Execute() returns (ok: bool)
      requires Safe() && alive && !bound && !installCalled && !cut
      modifies this
      ensures Safe() && (old(enabled) ==> Recorded())
      ensures ok ==> alive && installCalled && bound && row.Adopted? && Restorable()
      ensures installCalled ==> AfterInstall()
      ensures PreInstall(env, old(row), ok, installCalled) && alive && !env.provider && env.rootResolves ==>
                row.NoRow? && !snaps
      ensures env.provider && alive && !installCalled && old(enabled) && ReEnables(env) ==> enabled
      ensures env.provider && alive && !installCalled && old(enabled) && TakesBack(env, old(row)) ==>
                enabled && row.NoRow? && !snaps
      ensures cut ==> CutCause(env, old(manifest))
      ensures Smooth(env, old(row), old(enabled)) && env.rootResolves && CutCause(env, old(manifest)) ==> cut
      ensures !env.provider && env.rootResolves && CutCause(env, old(manifest)) ==>
                (Smooth(env, old(row), old(enabled)) ==> !ok && Deserted(old(manifest)))
      ensures Smooth(env, old(row), old(enabled)) && !env.rootResolves && !env.provider ==> !ok && Uncompensated()
      // when an adopt succeeds, and what it is worth
      ensures installCalled && alive ==> Concluded(ok)
      ensures Smooth(env, old(row), old(enabled)) && env.rootResolves && Creates(env, old(manifest)) ==>
                && installCalled && (!env.installing.CleanFailure? ==> alive)
                && (ok <==> env.installing.Installed? && env.verifies && env.received)
    {
      var disabled, managedInstalled;
      ok, disabled, managedInstalled := Transaction();
      if !ok && disabled && !managedInstalled {
        var restored := Restore(RestoreLater);
        if restored {
          var _ := Abort();
        }
      }
    }
  }

  // A step works, or at least takes effect, when it is reached.
  predicate Works(e: Env, s: Step) { e.outcome(s).Done? }
  predicate Lands(e: Env, s: Step) { !e.outcome(s).FailBefore? && !e.outcome(s).CrashBefore? }

  // Capture may write its row over what is there.
  predicate Replaceable(e: Env, row: Row) { row.NoRow? || (row.Adopting? && e.capturable) }

  // The manifest that is there after a creation that failed for one of the two causes below.
  function Found(before: Manifest): Manifest {
    if before.NoManifest? then Ours else before
  }

  // The failed install's history allows the recovery.
  predicate Rolled(e: Env) {
    e.installing.CleanFailure? && e.historyReads && !e.history.Started?
  }

  predicate RecoveryWorks(e: Env) {
    && e.outcome(MarkDeAdopting).Done? && e.outcome(ClaimHistory).Done? && e.outcome(RecoverManifest).Done?
    && e.outcome(NoteRemoved).Done? && e.outcome(RestoreGuarded).Done? && e.outcome(NoteApplied).Done?
    && e.outcome(RecoverKeys).Done? && e.outcome(CloseSnapshots).Done? && e.outcome(CloseRow).Done?
    && e.inventory && e.bindingsClear
  }

  predicate CleanUpWorks(e: Env) {
    && e.outcome(DropSnapshots).Done? && e.outcome(DropRow).Done?
    && e.outcome(DropManifest).Done? && e.outcome(DropKeys).Done?
  }

  // A run from a clean store that failed before the install, with working clean-ups.
  predicate PreInstall(e: Env, before: Row, ok: bool, installCalled: bool) {
    before.NoRow? && !ok && !installCalled && CleanUpWorks(e) && !e.outcome(WriteRow).FailAfter?
  }

  // The provider's activation can be put back, and is never lost unseen.
  predicate ReEnables(e: Env) {
    e.outcome(RestoreNow).Done? && e.outcome(RestoreLater).Done? && !e.outcome(DisableProvider).FailAfter?
  }

  // From a clean store, the provider is disabled or left alone, and put back with its capture.
  predicate TakesBack(e: Env, before: Row) {
    && before.NoRow? && !e.outcome(WriteRow).FailAfter? && CleanUpWorks(e)
    && Works(e, DisableProvider) && Works(e, RestoreNow) && Works(e, RestoreLater)
  }

  // Every step but the manifest creation works.
  ghost predicate Calm(e: Env) {
    forall s: Step :: !s.CreateManifest? ==> e.outcome(s).Done?
  }

  // The run gets as far as the manifest.
  ghost predicate Smooth(e: Env, row: Row, enabled: bool) {
    Calm(e) && row.NoRow? && (e.provider ==> enabled && e.observedClear && e.stillDisabled)
  }

  // The manifest creation works.
  predicate Creates(e: Env, before: Manifest) {
    before.NoManifest? && e.outcome(CreateManifest).Done?
  }

  // The manifest creation fails with a manifest there: an older one, or one that landed late.
  predicate CutCause(e: Env, before: Manifest) {
    e.routes && (!before.NoManifest? || e.outcome(CreateManifest).FailAfter?)
  }

  /** One way to lose the keys of a manifest that stays: its creation is reported as failed after it landed. */
  method LateManifestLosesKeys() returns (a: Adoption, ok: bool)
    ensures !ok && a.alive && a.cut && a.manifest.Ours? && a.keys.NoKeys?
  {
    var outcome := (s: Step) => if s == CreateManifest then FailAfter else Done;
    var env := Env(false, true, outcome, true, true, true, true, Installed, NoKeys, NoKeys, false, Started,
                   true, true, true, true, true);
    a := new Adoption(env, NoRow, false, NoManifest, NoKeys, false, false);
    assert Smooth(env, NoRow, false);
    ok := a.Execute();
  }
}
