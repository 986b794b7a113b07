/**
 The profile update of an adopted manifest: three stores (manifest file, supervisor
 intent, provenance record) move from old to new under a write-ahead journal, with
 forward recovery and rollback recovery.

 The run is sequential under the manifest lease.  Every durable call consults a fault
 script: it may succeed, fail without effect, fail after its effect, or crash the
 process before its effect.  A crash anywhere is a run whose script says so, and a
 theorem about every script is a theorem about every crash point.  Contents stand for
 their hashes (the hash is injective on the contents in play); NO_HASH is the empty
 hash string.
 */
module ProfileUpdate {
  import opened Wrappers

  type Name = nat
  type Hash = nat
  type Profile = nat
  type Target = Option<nat>  // the daemon row of a task, or its absence

  const NO_HASH: Hash := 0

  datatype Record = Record(adopted: bool, adoptHash: Hash, expected: Hash, profile: Profile)

  datatype Journal = Journal(profile: Profile, oldProfile: Profile, oldHash: Hash, newHash: Hash,
                             oldTarget: Target, newTarget: Target, rollback: bool)

  datatype Plan = Plan(profile: Profile, oldHash: Hash, newHash: Hash)

  datatype Disk = Disk(manifests: map<Name, Hash>, intents: map<Name, Target>,
                       records: map<Name, Record>, journals: map<Name, Journal>)

  datatype Fault = Proceed | FailBefore | FailAfter | Crash
  datatype Outcome = Ok | Error | Crashed

  function Intent(d: Disk, m: Name): Target {
    if m in d.intents then d.intents[m] else None
  }

  // ---- the durable effects ----

  function SetManifest(d: Disk, m: Name, h: Hash): Disk { d.(manifests := d.manifests[m := h]) }
  function SetIntent(d: Disk, m: Name, t: Target): Disk { d.(intents := d.intents[m := t]) }
  function AddJournal(d: Disk, m: Name, j: Journal): Disk { d.(journals := d.journals[m := j]) }
  function DropJournal(d: Disk, m: Name): Disk { d.(journals := d.journals - {m}) }

  // Record and journal live in one document: they change in one atomic write.
  function SettleAt(d: Disk, m: Name, h: Hash, p: Profile): Disk {
    if m !in d.records then d
    else DropJournal(d.(records := d.records[m := d.records[m].(expected := h, profile := p)]), m)
  }

  function MarkedRollback(d: Disk, m: Name): Disk {
    if m in d.journals then AddJournal(d, m, d.journals[m].(rollback := true)) else d
  }

  function EnsuredIntent(d: Disk, m: Name, desired: Target): Disk {
    if Intent(d, m) == desired then d else SetIntent(d, m, desired)
  }

  // ---- their compare-and-swap guards ----

  predicate CanEdit(d: Disk, m: Name, expected: Hash) {
    m in d.manifests && (expected == NO_HASH || d.manifests[m] == expected)
  }

  // An absent row is never a legal target.
  predicate CanEnsure(d: Disk, m: Name, expected: Target, desired: Target) {
    desired.Some? && (Intent(d, m) == desired || Intent(d, m) == expected)
  }

  predicate CanBegin(d: Disk, m: Name, j: Journal) {
    m !in d.journals && m in d.records && d.records[m].adopted && d.records[m].expected == j.oldHash
  }

  // The record must hold `from`, and a journal for the same new hash must be pending.
  predicate CanSettle(d: Disk, m: Name, j: Journal, from: Hash) {
    m in d.records && d.records[m].expected == from && m in d.journals && d.journals[m].newHash == j.newHash
  }

  // ---- where the three stores stand ----

  ghost predicate AllAt(d: Disk, m: Name, h: Hash, t: Target) {
    && m !in d.journals
    && m in d.manifests && d.manifests[m] == h
    && Intent(d, m) == t
    && m in d.records && d.records[m].expected == h
  }

  ghost predicate AllNew(d: Disk, m: Name, j: Journal) {
    AllAt(d, m, j.newHash, j.newTarget) && d.records[m].profile == j.profile
  }

  ghost predicate AllOld(d: Disk, m: Name, j: Journal) {
    AllAt(d, m, j.oldHash, j.oldTarget) && d.records[m].profile == j.oldProfile
  }

  // What every run keeps while nobody else edits the stores.
  ghost predicate Consistent(d: Disk, m: Name) {
    m in d.journals ==> Journaled(d, m, d.journals[m])
  }

  ghost predicate Journaled(d: Disk, m: Name, j: Journal) {
    && m in d.records && d.records[m].adopted && d.records[m].expected == j.oldHash
      && d.records[m].profile == j.oldProfile
    && m in d.manifests && (d.manifests[m] == j.oldHash || d.manifests[m] == j.newHash)
    && (Intent(d, m) == j.oldTarget || Intent(d, m) == j.newTarget)
    && j.newTarget.Some?
  }

  // The states the recovery switch recognises.
  ghost predicate Recognised(d: Disk, m: Name, j: Journal) {
    && m in d.manifests && m in d.records
    && var mh, rh := d.manifests[m], d.records[m].expected;
       || (mh == j.oldHash && rh == j.oldHash)
       || (mh == j.newHash && rh == j.newHash)
       || (!j.rollback && mh == j.newHash && rh == j.oldHash)
       || (j.rollback && mh == j.oldHash && rh == j.newHash)
  }

  // No further fault; an exhausted script injects none either.
  predicate Calm(faults: seq<Fault>) {
    forall i :: 0 <= i < |faults| ==> faults[i] == Proceed
  }

  // What is left of a script after its first fault.
  function Rest(faults: seq<Fault>): seq<Fault> {
    if faults == [] then [] else if faults[0] == Proceed then Rest(faults[1..]) else faults[1..]
  }

  // At most one call fails, and none crashes.
  predicate AtMostOne(faults: seq<Fault>) {
    Calm(Rest(faults)) && Crash !in faults
  }

  // The first fault hits the journal after it has landed.
  predicate JournalLate(faults: seq<Fault>) {
    faults != [] && faults[0] == FailAfter
  }

  // The call after the first fault, which is the rollback mark, does not land.
  predicate MarkLost(faults: seq<Fault>) {
    Rest(faults) != [] && Rest(faults)[0] == FailBefore
  }

  // Everything stored about one manifest.
  datatype Slice = Slice(manifest: Option<Hash>, intent: Target, record: Option<Record>, journal: Option<Journal>)

  function About(d: Disk, n: Name): Slice {
    Slice(if n in d.manifests then Some(d.manifests[n]) else None, Intent(d, n),
          if n in d.records then Some(d.records[n]) else None, if n in d.journals then Some(d.journals[n]) else None)
  }

  ghost predicate SameElsewhere(d: Disk, e: Disk, m: Name) {
    forall n :: n != m ==> About(d, n) == About(e, n)
  }

  // ---- what each durable effect keeps ----

  // A pending journal j for m, whatever its rollback mark.
  ghost predicate Pending(d: Disk, m: Name, j: Journal) {
    m in d.journals && d.journals[m].(rollback := j.rollback) == j && Journaled(d, m, j)
  }

  lemma EditKeeps(d: Disk, m: Name, j: Journal, h: Hash)
    requires Pending(d, m, j) && (h == j.oldHash || h == j.newHash)
    ensures Pending(SetManifest(d, m, h), m, j) && SetManifest(d, m, h).journals == d.journals
  {
  }

  lemma EnsureKeeps(d: Disk, m: Name, j: Journal, t: Target)
    requires Pending(d, m, j) && (t == j.oldTarget || t == j.newTarget)
    ensures Pending(EnsuredIntent(d, m, t), m, j) && EnsuredIntent(d, m, t).journals == d.journals
  {
  }

  lemma MarkKeeps(d: Disk, m: Name, j: Journal)
    requires Pending(d, m, j)
    ensures Pending(MarkedRollback(d, m), m, j) && MarkedRollback(d, m).journals[m].rollback
  {
  }

  lemma Idempotent(d: Disk, m: Name)
    ensures m in d.manifests ==> SetManifest(d, m, d.manifests[m]) == d
    ensures m in d.journals && d.journals[m].rollback ==> MarkedRollback(d, m) == d
  {
    if m in d.manifests { assert d.manifests[m := d.manifests[m]] == d.manifests; }
    if m in d.journals && d.journals[m].rollback {
      assert d.journals[m].(rollback := true) == d.journals[m];
      assert d.journals[m := d.journals[m]] == d.journals;
    }
  }

  // Marked and with the manifest back: the state a rollback aims at before the record.
  function ManifestBack(d: Disk, m: Name, j: Journal): Disk {
    SetManifest(MarkedRollback(d, m), m, j.oldHash)
  }

  /** A live rollback journal whose manifest is still at the new content is outside
      the recovery switch: the record is still at the old hash. */
  lemma StuckIsUnrecognised(d: Disk, m: Name)
    requires Consistent(d, m) && m in d.journals && d.journals[m].rollback
    ensures Recognised(d, m, d.journals[m]) <==> d.manifests[m] == d.journals[m].oldHash
  {
    assert Journaled(d, m, d.journals[m]);
  }

  // The reviewed plan still describes the stores.
  ghost predicate Admissible(d: Disk, m: Name, plan: Plan, render: (Hash, Profile) -> Option<Hash>,
                             build: Hash -> Option<nat>) {
    && m in d.records && d.records[m].adopted && d.records[m].adoptHash != NO_HASH
    && m in d.manifests && d.manifests[m] == plan.oldHash && d.records[m].expected == plan.oldHash
      && plan.oldHash != NO_HASH
    && render(plan.oldHash, plan.profile) == Some(plan.newHash)
    && ((d.records[m].profile == plan.profile && plan.newHash == plan.oldHash) || build(plan.newHash).Some?)
  }

  datatype Replanned = Invalid | Noop | Go(j: Journal)

  // The journal of this plan over d.
  ghost predicate Planned(d: Disk, m: Name, plan: Plan, j: Journal) {
    && j.profile == plan.profile && j.oldHash == plan.oldHash && j.newHash == plan.newHash && !j.rollback
    && j.oldTarget == Intent(d, m) && m in d.records && j.oldProfile == d.records[m].profile
    && d.records[m].expected == plan.oldHash && m in d.manifests && d.manifests[m] == plan.oldHash
  }

  // The record of m is still the one it was.
  ghost predicate Unmoved(d: Disk, e: Disk, m: Name) {
    About(d, m).record == About(e, m).record
  }

  // The plan moves the manifest and the intent row.
  ghost predicate Changing(d: Disk, m: Name, plan: Plan, render: (Hash, Profile) -> Option<Hash>,
                           build: Hash -> Option<nat>) {
    && Admissible(d, m, plan, render, build) && plan.oldHash != plan.newHash
    && build(plan.newHash).Some? && Intent(d, m) != build(plan.newHash)
  }

  // Journal and manifest are written, the intent refresh fails before its effect, the
  // rollback is marked, and the process dies before the manifest goes back.
  const DIES_AFTER_MARK: seq<Fault> := [Proceed, Proceed, FailBefore, Proceed, Crash]

  // What an update with journal j leaves of `before` when it reports an error: nothing changed,
  // or everything new after all, or a journal that is marked rollback, unless it landed late
  // or the mark was lost.  After one single fault the mark also finds everything put back.
  ghost predicate TakenBack(before: Disk, after: Disk, m: Name, j: Journal, script: seq<Fault>) {
    if m !in after.journals then
      after == before || AllNew(after, m, j) || (j.oldHash == j.newHash && AllOld(after, m, j))
    else
      && after.records == before.records
      && after.journals[m] == j.(rollback := !JournalLate(script) && !MarkLost(script))
      && (AtMostOne(script) && !JournalLate(script) && j.oldHash != j.newHash && j.oldTarget.Some? ==>
            m in after.manifests && after.manifests[m] == j.oldHash && Intent(after, m) == j.oldTarget)
  }

  // One single fault, and the record not moved: a recovery finds a rollback it can finish.
  lemma TakenBackIsBack(before: Disk, between: Disk, m: Name, plan: Plan, j: Journal, script: seq<Fault>)
    requires Planned(before, m, plan, j) && TakenBack(before, between, m, j, script) && between != before
    ensures plan.oldHash != plan.newHash && AtMostOne(script) && !JournalLate(script) && j.oldTarget.Some? ==>
              (Unmoved(before, between, m) ==>
                 && m in between.journals && between.journals[m] == j.(rollback := true)
                 && m in between.manifests && between.manifests[m] == before.manifests[m]
                 && Intent(between, m) == Intent(before, m) && between.records == before.records)
  {
  }

  // A marked rollback with the manifest still new and the record still old.
  ghost predicate Stuck(d: Disk, m: Name, plan: Plan) {
    && Consistent(d, m) && m in d.journals && d.journals[m].rollback
    && d.journals[m].oldHash == plan.oldHash && d.journals[m].newHash == plan.newHash
    && d.manifests[m] == plan.newHash && d.records[m].expected == plan.oldHash
  }

  class Hub {
    var disk: Disk
    var faults: seq<Fault>

    constructor (d: Disk, script: seq<Fault>)
      ensures disk == d && faults == script
    {
      disk, faults := d, script;
    }

    method NextFault() returns (f: Fault)
      modifies this`faults
      ensures old(faults) == [] ==> f == Proceed && faults == []
      ensures old(faults) != [] ==> f == old(faults)[0] && faults == old(faults)[1..]
    {
      if faults == [] {
        return Proceed;
      }
      f := faults[0];
      faults := faults[1..];
    }

    // A guarded durable call: success means the guard held and the effect landed, a
    // failure leaves the old state or the effect, a calm script reports the guard, and
    // the first fault of a script is the first failure.
    twostate predicate Attempted(o: Outcome, guard: bool, effect: Disk)
      reads this
    {
      && (o == Ok ==> guard && disk == effect)
      && (!guard ==> o == Error)
      && (disk == old(disk) || (guard && disk == effect))
      && (Calm(old(faults)) ==> Calm(faults) && o != Crashed && (o == Ok <==> guard))
      && (o == Ok ==> Rest(faults) == Rest(old(faults))) && (guard && o == Error ==> faults == Rest(old(faults)))
    }

    // What the next fault of the script makes of a call that gets as far as its write.
    twostate predicate Scripted(o: Outcome, effect: Disk)
      reads this
    {
      old(faults) != [] ==>
        && faults == old(faults)[1..]
        && match old(faults)[0]
           case Proceed => o == Ok && disk == effect
           case FailBefore => o == Error && disk == old(disk)
           case FailAfter => o == Error && disk == effect
           case Crash => o == Crashed && disk == old(disk)
    }

    method Write(d: Disk) returns (o: Outcome)
      modifies this
      ensures Attempted(o, true, d) && Scripted(o, d)
    {
      var f := NextFault();
      match f {
        case Crash => return Crashed;
        case FailBefore => return Error;
        case FailAfter => disk := d; return Error;
        case Proceed => disk := d; return Ok;
      }
    }

    method EditManifest(m: Name, content: Hash, expected: Hash) returns (o: Outcome)
      modifies this
      ensures SameElsewhere(disk, old(disk), m)
      ensures Attempted(o, CanEdit(old(disk), m, expected), SetManifest(old(disk), m, content))
      ensures CanEdit(old(disk), m, expected) ==> Scripted(o, SetManifest(old(disk), m, content))
    {
      if m !in disk.manifests {
        return Error;
      }
      if expected != NO_HASH && disk.manifests[m] != expected {
        return Error;
      }
      o := Write(SetManifest(disk, m, content));
    }

    method EnsureIntent(m: Name, expected: Target, desired: Target) returns (o: Outcome)
      modifies this
      ensures SameElsewhere(disk, old(disk), m)
      ensures Attempted(o, CanEnsure(old(disk), m, expected, desired), EnsuredIntent(old(disk), m, desired))
      ensures CanEnsure(old(disk), m, expected, desired) && Intent(old(disk), m) != desired ==>
                Scripted(o, EnsuredIntent(old(disk), m, desired))
    {
      if desired.None? {
        return Error;
      }
      if Intent(disk, m) == desired {
        return Ok;
      }
      if Intent(disk, m) != expected {
        return Error;
      }
      o := Write(SetIntent(disk, m, desired));
    }

    method BeginJournal(m: Name, j: Journal) returns (o: Outcome)
      modifies this
      ensures SameElsewhere(disk, old(disk), m)
      ensures Attempted(o, CanBegin(old(disk), m, j), AddJournal(old(disk), m, j))
      ensures CanBegin(old(disk), m, j) ==> Scripted(o, AddJournal(old(disk), m, j))
    {
      if m in disk.journals {
        return Error;
      }
      if m !in disk.records {
        return Error;
      }
      if !disk.records[m].adopted || disk.records[m].expected != j.oldHash {
        return Error;
      }
      o := Write(AddJournal(disk, m, j));
    }

    method Commit(m: Name, j: Journal) returns (o: Outcome)
      modifies this
      ensures SameElsewhere(disk, old(disk), m)
      ensures Attempted(o, CanSettle(old(disk), m, j, j.oldHash), SettleAt(old(disk), m, j.newHash, j.profile))
    {
      if m !in disk.records {
        return Error;
      }
      if !(m in disk.journals && disk.journals[m].newHash == j.newHash) || disk.records[m].expected != j.oldHash {
        return Error;
      }
      o := Write(SettleAt(disk, m, j.newHash, j.profile));
    }

    method MarkRollback(m: Name) returns (o: Outcome)
      modifies this
      ensures SameElsewhere(disk, old(disk), m)
      ensures Attempted(o, m in old(disk).journals, MarkedRollback(old(disk), m))
      ensures m in old(disk).journals ==> Scripted(o, MarkedRollback(old(disk), m))
    {
      if m !in disk.journals {
        return Error;
      }
      o := Write(AddJournal(disk, m, disk.journals[m].(rollback := true)));
    }

    // The record must already be at the new hash.
    method RollbackRecord(m: Name, j: Journal) returns (o: Outcome)
      modifies this
      ensures SameElsewhere(disk, old(disk), m)
      ensures Attempted(o, CanSettle(old(disk), m, j, j.newHash), SettleAt(old(disk), m, j.oldHash, j.oldProfile))
    {
      if m !in disk.records {
        return Error;
      }
      if !(m in disk.journals && disk.journals[m].newHash == j.newHash) || disk.records[m].expected != j.newHash {
        return Error;
      }
      o := Write(SettleAt(disk, m, j.oldHash, j.oldProfile));
    }

    method ClearJournal(m: Name) returns (o: Outcome)
      modifies this
      ensures SameElsewhere(disk, old(disk), m)
      ensures Attempted(o, m in old(disk).records, DropJournal(old(disk), m))
    {
      if m !in disk.records {
        return Error;
      }
      o := Write(DropJournal(disk, m));
    }

    // Manifest, then intent, then the record together with the journal.
    method FinishForward(m: Name, j: Journal) returns (o: Outcome)
      modifies this
      ensures SameElsewhere(disk, old(disk), m)
      ensures o == Ok ==> AllNew(disk, m, j)
      ensures old(Pending(disk, m, j)) ==>
                if m in disk.journals then Pending(disk, m, j)
                  && disk.journals[m] == old(disk).journals[m] else AllNew(disk, m, j)
      ensures Calm(old(faults)) && old(Pending(disk, m, j) && disk.manifests[m] == j.oldHash) ==> o == Ok
      // an intent refresh that fails before its effect leaves only the manifest new
      ensures old(Pending(disk, m, j) && disk.manifests[m] == j.oldHash && Intent(disk, m) != j.newTarget
                  && [Proceed, FailBefore] <= faults) ==>
                o == Error && disk == SetManifest(old(disk), m, j.newHash) && faults == old(faults)[2..]
      ensures old(Pending(disk, m, j)) && m in disk.journals ==> disk.records == old(disk).records
      // what is left of the script when it stops
      ensures old(Pending(disk, m, j) && disk.manifests[m] == j.oldHash) && o == Error ==> faults == Rest(old(faults))
    {
      ghost var d0, pending := disk, Pending(disk, m, j);
      o := EditManifest(m, j.newHash, j.oldHash);
      if pending { EditKeeps(d0, m, j, j.newHash); }
      if o != Ok {
        return;
      }
      ghost var d1 := disk;
      o := EnsureIntent(m, j.oldTarget, j.newTarget);
      if pending { EnsureKeeps(d1, m, j, j.newTarget); }
      if o != Ok {
        return;
      }
      o := Commit(m, j);
    }

    // Mark, then manifest, then intent, then the record.
    method Rollback(m: Name, j: Journal) returns (o: Outcome)
      modifies this
      ensures SameElsewhere(disk, old(disk), m)
      ensures o == Ok ==> AllOld(disk, m, j)
      ensures old(Pending(disk, m, j)) ==> if m in disk.journals then Pending(disk, m, j) else AllOld(disk, m, j)
      ensures old(m !in disk.journals) ==> o != Ok && disk == old(disk)
      // undisturbed, it restores manifest and intent, and then reports an error: the
      // record was never moved, and moving it back is refused
      ensures Calm(old(faults)) && old(Pending(disk, m, j)) && j.oldHash != j.newHash && j.oldTarget.Some? ==>
                o == Error && disk == EnsuredIntent(ManifestBack(old(disk), m, j), m, j.oldTarget)
      ensures Calm(old(faults)) && old(Pending(disk, m, j)) && j.oldTarget.None? ==>
                o == Error && disk == ManifestBack(old(disk), m, j)
      ensures Calm(old(faults)) && old(Pending(disk, m, j)) && j.oldHash == j.newHash && j.oldTarget.Some? ==> o == Ok
      ensures old(Pending(disk, m, j)) && m in disk.journals ==> disk.records == old(disk).records
      ensures old(Pending(disk, m, j)) && j.oldHash != j.newHash ==> m in disk.journals
      // whatever happens after the mark, the mark stays
      ensures old(Pending(disk, m, j) && !disk.journals[m].rollback) && o == Error && m in disk.journals ==>
                (disk.journals[m].rollback <==> !(old(faults) != [] && old(faults)[0] == FailBefore))
      // a crash right after the mark leaves the manifest new
      ensures old(Pending(disk, m, j) && disk.manifests[m] == j.newHash && [Proceed, Crash] <= faults) ==>
                o == Crashed && disk == MarkedRollback(old(disk), m)
    {
      ghost var d0, pending := disk, Pending(disk, m, j);
      o := MarkRollback(m);
      if pending { MarkKeeps(d0, m, j); }
      if o != Ok {
        return;
      }
      ghost var d1 := disk;
      Idempotent(d1, m);
      if m !in disk.manifests {
        return Error;
      }
      if disk.manifests[m] == j.newHash {
        if pending { EditKeeps(d1, m, j, j.oldHash); }
        o := EditManifest(m, j.oldHash, j.newHash);
        if o != Ok {
          return;
        }
      } else if disk.manifests[m] != j.oldHash {
        return Error;
      }
      ghost var d2 := disk;
      o := EnsureIntent(m, j.newTarget, j.oldTarget);
      if pending { EnsureKeeps(d2, m, j, j.oldTarget); }
      if o != Ok {
        return;
      }
      o := RollbackRecord(m, j);
    }

    /** Recovery under the lease: the switch over journal direction, manifest hash and
        record hash. */
    method Recover(m: Name) returns (o: Outcome)
      modifies this
      ensures SameElsewhere(disk, old(disk), m)
      ensures old(m !in disk.journals) ==> o == Ok && disk == old(disk) && faults == old(faults)
      // success is never reported half-way, from any state and under any faults
      ensures o == Ok && old(m in disk.journals) ==>
                var j := old(disk).journals[m];
                if j.rollback then AllAt(disk, m, j.oldHash, j.oldTarget) else AllAt(disk, m, j.newHash, j.newTarget)
      // an unrecognised state is refused and nothing changes
      ensures old(m in disk.journals) && !Recognised(old(disk), m, old(disk).journals[m]) ==>
                o == Error && disk == old(disk)
      ensures old(Consistent(disk, m)) ==> Consistent(disk, m)
      // one undisturbed recovery finishes a forward journal
      ensures Calm(old(faults)) && old(Consistent(disk, m) && m in disk.journals && !disk.journals[m].rollback) ==>
                o == Ok && AllNew(disk, m, old(disk).journals[m])
      // ... and a rollback journal exactly when the manifest is back and the old intent row exists
      ensures Calm(old(faults)) && old(Consistent(disk, m) && m in disk.journals && disk.journals[m].rollback) ==>
                var j := old(disk).journals[m];
                && (o == Ok <==> old(disk).manifests[m] == j.oldHash && j.oldTarget.Some?)
                && (if o == Ok then AllOld(disk, m, j) else disk == old(disk))
                && (j.oldHash != j.newHash ==> disk.records == old(disk).records)
      // otherwise, when the hashes differ, no script ever moves it
      ensures old(Consistent(disk, m) && m in disk.journals && disk.journals[m].rollback) ==>
                var j := old(disk).journals[m];
                j.oldHash != j.newHash && !(old(disk).manifests[m] == j.oldHash && j.oldTarget.Some?) ==>
                    o == Error && disk == old(disk)
    {
      if m !in disk.journals {
        return Ok;
      }
      var j := disk.journals[m];
      if m !in disk.manifests {
        return Error;
      }
      if m !in disk.records {
        return Error;
      }
      var mh, rh := disk.manifests[m], disk.records[m].expected;
      if j.rollback {
        if mh == j.newHash && rh == j.newHash {
          o := Rollback(m, j);
        } else if mh == j.oldHash && rh == j.newHash {
          o := EnsureIntent(m, j.newTarget, j.oldTarget);
          if o == Ok {
            o := RollbackRecord(m, j);
          }
        } else if mh == j.oldHash && rh == j.oldHash {
          o := EnsureIntent(m, j.newTarget, j.oldTarget);
          if o == Ok {
            o := ClearJournal(m);
          }
        } else {
          return Error;
        }
      } else {
        if mh == j.oldHash && rh == j.oldHash {
          o := FinishForward(m, j);
        } else if mh == j.newHash && rh == j.oldHash {
          o := EnsureIntent(m, j.oldTarget, j.newTarget);
          if o == Ok {
            o := EnsureIntent(m, j.oldTarget, j.newTarget);
          }
          if o == Ok {
            o := Commit(m, j);
          }
        } else if mh == j.newHash && rh == j.newHash {
          o := EnsureIntent(m, j.oldTarget, j.newTarget);
          if o == Ok {
            o := ClearJournal(m);
          }
        } else {
          return Error;
        }
      }
    }

    // Journal, forward pass, and the same-run rollback when the forward pass reports an error.
    method Apply(m: Name, j: Journal) returns (o: Outcome)
      requires m !in disk.journals && Journaled(disk, m, j) && disk.manifests[m] == j.oldHash && !j.rollback
      modifies this
      ensures SameElsewhere(disk, old(disk), m)
      ensures Consistent(disk, m)
      ensures o == Ok ==> AllNew(disk, m, j)
      ensures Calm(old(faults)) ==> o == Ok
      ensures old(faults) == DIES_AFTER_MARK && Intent(old(disk), m) != j.newTarget ==>
                o == Crashed && disk == SetManifest(MarkedRollback(AddJournal(old(disk), m, j), m), m, j.newHash)
      ensures o == Error ==> TakenBack(old(disk), disk, m, j, old(faults))
      ensures JournalLate(old(faults)) ==> o == Error && disk == AddJournal(old(disk), m, j)
    {
      ghost var d := disk;
      o := BeginJournal(m, j);
      assert disk == d || Pending(disk, m, j);
      if o != Ok {
        return;
      }
      o := FinishForward(m, j);
      if o == Error {
        var r := Rollback(m, j);
        o := if r == Crashed then Crashed else Error;
      }
    }

    /** The whole update under one lease: recovery, fresh plan, journal, forward pass, and
        the same-run rollback when the forward pass reports an error.  `render` is the
        manifest edit for a profile, `build` the daemon row derived from a manifest. */
    method Execute(m: Name, plan: Plan, render: (Hash, Profile) -> Option<Hash>, build: Hash -> Option<nat>)
      returns (o: Outcome)
      modifies this
      ensures SameElsewhere(disk, old(disk), m)
      ensures old(Consistent(disk, m)) ==> Consistent(disk, m)
      ensures o == Ok ==>
                && m !in disk.journals
                && m in disk.manifests && disk.manifests[m] == plan.newHash
                && m in disk.records && disk.records[m].expected == plan.newHash
                  && disk.records[m].profile == plan.profile
                && (plan.oldHash != plan.newHash ==> Intent(disk, m).Some? && Intent(disk, m) == build(plan.newHash))
      ensures old(m !in disk.journals) && Calm(old(faults)) ==>
                (o == Ok <==> Admissible(old(disk), m, plan, render, build))
      ensures old(m !in disk.journals && Changing(disk, m, plan, render, build) && faults == DIES_AFTER_MARK) ==>
                o == Crashed && Stuck(disk, m, plan)
      // an error is taken back
      ensures old(m !in disk.journals) && o == Error ==>
                disk == old(disk)
                || exists j :: Planned(old(disk), m, plan, j) && TakenBack(old(disk), disk, m, j, old(faults))
      ensures old(m !in disk.journals && Changing(disk, m, plan, render, build)) && JournalLate(old(faults)) ==>
                o == Error && m in disk.journals && !disk.journals[m].rollback
    {
      o := Recover(m);
      if o != Ok {
        return;
      }
      var again := Replan(m, plan, render, build);
      match again {
        case Invalid => o := Error;
        case Noop =>
        case Go(j) => o := Apply(m, j);
      }
    }

    // The plan built again under the lease must be the reviewed one.
    method Replan(m: Name, plan: Plan, render: (Hash, Profile) -> Option<Hash>, build: Hash -> Option<nat>)
      returns (r: Replanned)
      requires m !in disk.journals
      ensures r.Invalid? <==> !Admissible(disk, m, plan, render, build)
      ensures r.Noop? ==> m in disk.records && disk.records[m].profile == plan.profile && plan.newHash == plan.oldHash
      ensures r.Go? ==> Planned(disk, m, plan, r.j) && Journaled(disk, m, r.j) && disk.manifests[m] == r.j.oldHash
      ensures r.Go? ==> r.j.newTarget == build(plan.newHash)
    {
      if m !in disk.records || !disk.records[m].adopted {
        return Invalid;
      }
      if m !in disk.manifests {
        return Invalid;
      }
      var rec, oldHash := disk.records[m], disk.manifests[m];
      if rec.expected == NO_HASH || oldHash != rec.expected || rec.adoptHash == NO_HASH {
        return Invalid;
      }
      var rendered := render(oldHash, plan.profile);
      if rendered.None? {
        return Invalid;
      }
      var newHash := rendered.value;
      if oldHash != plan.oldHash || newHash != plan.newHash {
        return Invalid;
      }
      if rec.profile == plan.profile && newHash == oldHash {
        return Noop;
      }
      var row := build(newHash);
      if row.None? {
        return Invalid;
      }
      r := Go(Journal(plan.profile, rec.profile, oldHash, newHash, Intent(disk, m), row, false));
    }

    /** From every crash point: whatever the script did to an update, one undisturbed
        recovery afterwards ends all new, or, once rollback was marked, all old exactly
        when the manifest is back and the old intent row exists; otherwise it refuses
        and changes nothing. */
    method CrashThenRecover(m: Name, plan: Plan, script: seq<Fault>, render: (Hash, Profile) -> Option<Hash>,
                            build: Hash -> Option<nat>)
      returns (first: Outcome, second: Outcome, ghost between: Disk)
      requires Consistent(disk, m)
      modifies this
      ensures Consistent(between, m) && SameElsewhere(disk, old(disk), m)
      ensures m !in between.journals ==> second == Ok && disk == between
      ensures m in between.journals && !between.journals[m].rollback ==>
                second == Ok && AllNew(disk, m, between.journals[m])
      ensures m in between.journals && between.journals[m].rollback ==>
                var j := between.journals[m];
                && (second == Ok <==> between.manifests[m] == j.oldHash && j.oldTarget.Some?)
                && (if second == Ok then AllOld(disk, m, j) else disk == between)
      // one failing call of an update that changes the manifest, whose journal did not land late:
      // if the record was not moved, one recovery ends with exactly what was there before
      ensures old(m !in disk.journals) && plan.oldHash != plan.newHash && first == Error && AtMostOne(script) ==>
                (!JournalLate(script) && Intent(old(disk), m).Some? && Unmoved(old(disk), between, m) ==>
                   second == Ok && About(disk, m) == About(old(disk), m))
    {
      faults := script;
      first := Execute(m, plan, render, build);
      between := disk;
      faults := [];
      second := Recover(m);
      if old(m !in disk.journals) && first == Error && between != old(disk) {
        ghost var j :| Planned(old(disk), m, plan, j) && TakenBack(old(disk), between, m, j, script);
        TakenBackIsBack(old(disk), between, m, plan, j, script);
      }
    }

    /** The one error that is not taken back: a journal that landed although its write was
        reported as failed.  The next recovery applies the update that was reported as failed. */
    method LateJournalIsApplied(m: Name, plan: Plan, render: (Hash, Profile) -> Option<Hash>,
                                build: Hash -> Option<nat>)
      returns (first: Outcome, second: Outcome)
      requires m !in disk.journals && Changing(disk, m, plan, render, build)
      modifies this
      ensures first == Error && second == Ok && m !in disk.journals
      ensures m in disk.manifests && disk.manifests[m] == plan.newHash
      ensures m in disk.records && disk.records[m].expected == plan.newHash && disk.records[m].profile == plan.profile
    {
      faults := [FailAfter];
      first := Execute(m, plan, render, build);
      faults := [];
      second := Recover(m);
    }

    /** Any number of updates and recoveries, each under its own script: while a journal
        exists the record still holds the journal's old hash. */
    method Campaign(m: Name, plans: seq<Option<Plan>>, scripts: seq<seq<Fault>>, render: (Hash,
                    Profile) -> Option<Hash>, build: Hash -> Option<nat>)
      requires |plans| == |scripts| && m !in disk.journals
      modifies this
      ensures m in disk.journals ==> m in disk.records && disk.records[m].expected == disk.journals[m].oldHash
      ensures Consistent(disk, m) && SameElsewhere(disk, old(disk), m)
    {
      for i := 0 to |plans|
        invariant Consistent(disk, m) && SameElsewhere(disk, old(disk), m)
      {
        faults := scripts[i];
        var o;
        if plans[i].Some? {
          o := Execute(m, plans[i].value, render, build);
        } else {
          o := Recover(m);
        }
      }
    }

    /** The stuck rollback: every update that moves the manifest and the intent row can
        end in it, by a refresh that fails and a crash right after the rollback mark.  No
        later recovery, under any script, changes that state. */
    method ReachStuck(m: Name, plan: Plan, render: (Hash, Profile) -> Option<Hash>, build: Hash -> Option<nat>,
                      script: seq<Fault>)
      returns (first: Outcome, second: Outcome)
      requires m !in disk.journals && Changing(disk, m, plan, render, build)
      modifies this
      ensures first == Crashed && second == Error && Stuck(disk, m, plan)
    {
      faults := DIES_AFTER_MARK;
      first := Execute(m, plan, render, build);
      faults := script;
      second := Recover(m);
    }

    /** A rollback that has put the manifest back is still refused for ever when the
        update started with no intent row: an absent row is never a legal target. */
    method AbsentOldRowIsRefused(m: Name, script: seq<Fault>) returns (o: Outcome)
      requires Consistent(disk, m) && m in disk.journals && disk.journals[m].rollback
      requires disk.journals[m].oldHash != disk.journals[m].newHash
      requires disk.manifests[m] == disk.journals[m].oldHash && disk.journals[m].oldTarget.None?
      modifies this
      ensures o == Error && disk == old(disk)
    {
      faults := script;
      o := Recover(m);
    }
  }
}
