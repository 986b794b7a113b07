/**
 The legacy namespace migration: tighten the access list of every legacy entry, of the
 namespace and of the root as one transaction, and put back what was changed when any
 step fails. The namespace is opened exclusively, so nobody else moves the lists meanwhile.
 */
module Migration {
  import opened Wrappers

  type Desc = nat

  datatype Obj = Root | Ns | Leaf(i: nat)

  datatype Setting = Applied(d: Desc) | Rejected | RejectedLate(d: Desc)
  datatype Restoring = Works | Breaks(d: Desc)

  // Every foreign answer: all behaviours of the calls are covered by ranging over Env.
  datatype Env = Env(
    opens: Obj -> bool,             // open and shape validation before the first change
    legacy: Obj -> bool,            // an unsafe list that is a recognised inherited legacy one
    captured: Obj -> bool,          // the descriptor could be captured
    safe: Desc -> bool,             // the allowlist test
    readable: (Obj, nat) -> bool,   // the n-th verification could read the object
    setting: Obj -> Setting,
    hook: Obj -> bool,              // a failure injected after the object was tightened
    wellShaped: Obj -> bool,        // the entry's shape at the final check
    restoring: Obj -> Restoring)

  // A roll back names the object whose tightening was reported as failed, if that was the reason.
  datatype Outcome = Refused | Unneeded | Migrated(changed: nat) | RolledBack(clean: bool, failed: Option<Obj>)

  // What a roll back leaves of o, whose captured descriptor is d.
  function PutBack(e: Env, o: Obj, d: Desc): Desc {
    match e.restoring(o)
    case Works => d
    case Breaks(other) => other
  }

  // What a reported failure of tightening o leaves of o.
  function LeftBehind(e: Env, o: Obj, d: Desc): Desc {
    match e.setting(o)
    case RejectedLate(other) => other
    case _ => d
  }

  // Nothing before the first change fails.
  ghost predicate Openable(e: Env) {
    forall o :: e.opens(o) && e.legacy(o) && e.captured(o)
  }

  // No check after a change fails.
  ghost predicate Checks(e: Env) {
    && (forall o :: e.wellShaped(o) && !e.hook(o) && (e.setting(o).Applied? ==> e.safe(e.setting(o).d)))
    && forall o, n :: e.readable(o, n)
  }

  class Store {
    const env: Env
    const leaves: nat
    var dacl: map<Obj, Desc>

    constructor (e: Env, n: nat, d: map<Obj, Desc>)
      requires Root in d && (forall i: nat :: Leaf(i) in d <==> i < n) && (Ns !in d ==> n == 0)
      ensures Valid() && env == e && leaves == n && dacl == d
    {
      env, leaves, dacl := e, n, d;
    }

    ghost predicate Valid()
      reads this
    {
      Root in dacl && (forall i: nat :: Leaf(i) in dacl <==> i < leaves) && (Ns !in dacl ==> leaves == 0)
    }

    predicate Passes(o: Obj, round: nat)
      requires o in dacl
      reads this
    {
      env.readable(o, round) && env.safe(dacl[o])
    }

    method Tighten(o: Obj) returns (ok: bool)
      requires Valid() && o in dacl
      modifies this`dacl
      ensures Valid() && dacl.Keys == old(dacl.Keys)
      ensures forall x :: x in dacl && x != o ==> dacl[x] == old(dacl)[x]
      ensures ok <==> env.setting(o).Applied?
      ensures dacl[o] == if env.setting(o).Rejected? then old(dacl)[o] else env.setting(o).d
    {
      match env.setting(o) {
        case Applied(d) => dacl, ok := dacl[o := d], true;
        case Rejected => ok := false;
        case RejectedLate(d) => dacl, ok := dacl[o := d], false;
      }
    }

    method Restore(o: Obj, d: Desc) returns (ok: bool)
      requires Valid() && o in dacl
      modifies this`dacl
      ensures Valid() && dacl == old(dacl)[o := PutBack(env, o, d)]
      ensures ok <==> env.restoring(o).Works?
    {
      match env.restoring(o) {
        case Works => dacl, ok := dacl[o := d], true;
        case Breaks(other) => dacl, ok := dacl[o := other], false;
      }
    }

    // Puts back the changed objects, last changed first: root, namespace, then the entries.
    method Undo(was: map<Obj, Desc>, changed: seq<Obj>) returns (clean: bool)
      requires Valid() && was.Keys == dacl.Keys && forall o :: o in changed ==> o in dacl
      modifies this`dacl
      ensures Valid() && dacl.Keys == was.Keys
      ensures forall o :: o in dacl ==> dacl[o] == if o in changed then PutBack(env, o, was[o]) else old(dacl)[o]
      ensures clean <==> forall o :: o in changed ==> env.restoring(o).Works?
    {
      clean := true;
      var i := |changed|;
      while i > 0
        invariant 0 <= i <= |changed| && Valid() && dacl.Keys == was.Keys
        invariant forall o :: o in dacl ==>
                    dacl[o] == if o in changed[i..] then PutBack(env, o, was[o]) else old(dacl)[o]
        invariant clean <==> forall o :: o in changed[i..] ==> env.restoring(o).Works?
      {
        i := i - 1;
        assert changed[i..] == [changed[i]] + changed[i + 1..];
        var ok := Restore(changed[i], was[changed[i]]);
        clean := clean && ok;
      }
    }

    ghost predicate Distinct(changed: seq<Obj>) {
      forall i, j :: 0 <= i < j < |changed| ==> changed[i] != changed[j]
    }

    // Everything outside `changed` still holds its captured descriptor, except what a
    // failed tightening left behind.
    ghost predicate Interrupted(was: map<Obj, Desc>, changed: seq<Obj>, failed: Option<Obj>)
      reads this
    {
      && Valid() && was.Keys == dacl.Keys && Distinct(changed)
      && (forall o :: o in changed ==> o in dacl && env.setting(o).Applied? && dacl[o] == env.setting(o).d)
      && (failed.Some? ==> failed.value in dacl && failed.value !in changed && !env.setting(failed.value).Applied?)
      && forall o :: o in dacl && o !in changed ==>
                       dacl[o] == if failed == Some(o) then LeftBehind(env, o, was[o]) else was[o]
    }

    ghost predicate OnlyChanged(was: map<Obj, Desc>, changed: seq<Obj>)
      reads this
    {
      Interrupted(was, changed, None)
    }

    // A step ended: well, by a failed tightening, or by a failed check.
    ghost predicate Ends(was: map<Obj, Desc>, changed: seq<Obj>, ok: bool, failed: Option<Obj>)
      reads this
    {
      && Interrupted(was, changed, failed)
      && (ok ==> failed.None?)
      && (!ok && failed.None? ==> !Checks(env))
    }

    predicate Before(changed: seq<Obj>, n: nat) {
      forall o :: o in changed ==> o.Leaf? && o.i < n
    }

    ghost predicate SafeBelow(n: nat)
      reads this
      requires Valid() && n <= leaves
    {
      forall i: nat :: i < n ==> env.safe(dacl[Leaf(i)])
    }

    ghost predicate LeavesSafe()
      reads this
      requires Valid()
    {
      SafeBelow(leaves)
    }

    // Tighten one object and verify it, remembering the change before the verification.
    method Secure(was: map<Obj, Desc>, changed: seq<Obj>, o: Obj)
      returns (ok: bool, changed': seq<Obj>, failed: Option<Obj>)
      requires OnlyChanged(was, changed) && o in dacl && o !in changed
      modifies this`dacl
      ensures Ends(was, changed', ok, failed)
      ensures changed' == changed + [o] || (changed' == changed && !ok)
      ensures ok ==> env.safe(dacl[o])
      ensures forall x :: x in dacl && x != o ==> dacl[x] == old(dacl)[x]
      ensures !o.Leaf? && old(LeavesSafe()) ==> LeavesSafe()
    {
      changed', failed := changed, None;
      ok := Tighten(o);
      if !ok {
        failed := Some(o);
        return;
      }
      changed' := changed + [o];
      ok := Passes(o, 1) && !env.hook(o);
    }

    method SecureLeaf(was: map<Obj, Desc>, changed: seq<Obj>, i: nat, need: bool)
      returns (ok: bool, changed': seq<Obj>, failed: Option<Obj>)
      requires OnlyChanged(was, changed) && Before(changed, i) && i < leaves && SafeBelow(i)
      requires !need ==> env.safe(was[Leaf(i)])
      modifies this`dacl
      ensures Ends(was, changed', ok, failed) && Before(changed', i + 1)
      ensures ok ==> SafeBelow(i + 1)
      ensures dacl[Root] == old(dacl)[Root]
    {
      ok, changed', failed := true, changed, None;
      if need {
        ok, changed', failed := Secure(was, changed, Leaf(i));
      }
    }

    method SecureLeaves(was: map<Obj, Desc>, needs: seq<bool>)
      returns (ok: bool, changed: seq<Obj>, failed: Option<Obj>)
      requires OnlyChanged(was, []) && |needs| == leaves
      requires forall i: nat :: i < leaves && !needs[i] ==> env.safe(was[Leaf(i)])
      modifies this`dacl
      ensures Ends(was, changed, ok, failed) && Before(changed, leaves)
      ensures ok ==> LeavesSafe()
      ensures dacl[Root] == old(dacl)[Root]
    {
      ok, changed, failed := true, [], None;
      for i := 0 to leaves
        invariant ok && failed.None? && OnlyChanged(was, changed) && Before(changed, i)
        invariant dacl[Root] == old(dacl)[Root] && SafeBelow(i)
      {
        ok, changed, failed := SecureLeaf(was, changed, i, needs[i]);
        if !ok {
          return;
        }
      }
    }

    // The namespace is tightened when it needs it and verified whenever it is there.
    method SecureNamespace(was: map<Obj, Desc>, changed: seq<Obj>)
      returns (ok: bool, changed': seq<Obj>, failed: Option<Obj>)
      requires OnlyChanged(was, changed) && Ns in dacl && LeavesSafe() && Before(changed, leaves)
      modifies this`dacl
      ensures Ends(was, changed', ok, failed)
      ensures changed' == changed + [Ns] || changed' == changed
      ensures ok ==> env.safe(dacl[Ns])
      ensures dacl[Root] == old(dacl)[Root] && LeavesSafe()
    {
      changed', failed := changed, None;
      if !Passes(Ns, 1) {
        ok := Tighten(Ns);
        if !ok {
          failed := Some(Ns);
          return;
        }
        changed' := changed + [Ns];
        if env.hook(Ns) {
          return false, changed', None;
        }
      }
      ok := Passes(Ns, 2);
    }

    method FinalCheck() returns (ok: bool)
      requires Valid()
      ensures ok ==> forall i: nat :: i < leaves ==> env.wellShaped(Leaf(i))
      ensures Checks(env) && LeavesSafe() ==> ok
    {
      for i := 0 to leaves
        invariant forall k: nat :: k < i ==> env.wellShaped(Leaf(k))
      {
        if !env.wellShaped(Leaf(i)) || !Passes(Leaf(i), 2) {
          return false;
        }
      }
      return true;
    }

    // The changing part: any failing step ends it with the changes made so far.
    method Transact(was: map<Obj, Desc>, needs: seq<bool>, rootNeeds: bool)
      returns (ok: bool, changed: seq<Obj>, failed: Option<Obj>)
      requires OnlyChanged(was, []) && |needs| == leaves
      requires !rootNeeds ==> env.safe(was[Root])
      requires forall i: nat :: i < leaves && !needs[i] ==> env.safe(was[Leaf(i)])
      modifies this`dacl
      ensures Ends(was, changed, ok, failed)
      ensures ok ==> forall o :: o in dacl ==> env.safe(dacl[o])
      ensures ok ==> forall i: nat :: i < leaves ==> env.wellShaped(Leaf(i))
    {
      ok, changed, failed := SecureLeaves(was, needs);
      if !ok {
        return;
      }
      if Ns in dacl {
        ok, changed, failed := SecureNamespace(was, changed);
        if !ok {
          return;
        }
      }
      if rootNeeds {
        ok, changed, failed := Secure(was, changed, Root);
        if !ok {
          return;
        }
      }
      ok := FinalCheck();
      if ok {
        AllSafe();
      }
    }

    lemma AllSafe()
      requires Valid() && env.safe(dacl[Root]) && (Ns in dacl ==> env.safe(dacl[Ns])) && LeavesSafe()
      ensures forall o :: o in dacl ==> env.safe(dacl[o])
    {
      forall o | o in dacl ensures env.safe(dacl[o]) {
        match o {
          case Root =>
          case Ns =>
          case Leaf(i) => assert i < leaves;
        }
      }
    }

    // Opened, readable and safe before the first change.
    predicate Ready(o: Obj)
      requires o in dacl
      reads this
    {
      env.opens(o) && Passes(o, 0)
    }

    // Not to be opened, or holding an unsafe list that is no recognised legacy one.
    predicate Unfit(o: Obj)
      requires o in dacl
      reads this
    {
      !env.opens(o) || (!Passes(o, 0) && !env.legacy(o))
    }

    // What the checks before the first change come to: refuse, nothing to do, or go ahead.
    ghost predicate MustRefuse()
      reads this
    {
      exists o :: o in dacl && Unfit(o)
    }

    // An object that is to be captured, and cannot be.  The namespace always is.
    predicate Uncaptured(o: Obj)
      requires o in dacl
      reads this
    {
      !env.captured(o) && (o == Ns || !Ready(o))
    }

    ghost predicate MissesCapture()
      reads this
    {
      exists o :: o in dacl && Uncaptured(o)
    }

    ghost predicate AllSet()
      reads this
    {
      forall o :: o in dacl ==> Ready(o)
    }

    lemma AllFit()
      requires Valid() && !Unfit(Root) && (Ns in dacl ==> !Unfit(Ns))
      requires forall i: nat :: i < leaves ==> !Unfit(Leaf(i))
      ensures forall o :: o in dacl ==> !Unfit(o)
    {
      forall o | o in dacl ensures !Unfit(o) {
        match o {
          case Root =>
          case Ns =>
          case Leaf(i) => assert i < leaves;
        }
      }
    }

    lemma AllReady()
      requires Valid() && Ready(Root) && (Ns in dacl ==> Ready(Ns))
      requires forall i: nat :: i < leaves ==> Ready(Leaf(i))
      ensures forall o :: o in dacl ==> Ready(o)
    {
      forall o | o in dacl ensures Ready(o) {
        match o {
          case Root =>
          case Ns =>
          case Leaf(i) => assert i < leaves;
        }
      }
    }

    // Before any change: which entries are legacy, or a refusal.
    method Analyze() returns (ok: bool, needs: seq<bool>, anyNeed: bool)
      requires Valid()
      ensures ok <==> forall i: nat :: i < leaves ==> !Unfit(Leaf(i))
      ensures ok ==> |needs| == leaves && forall i: nat :: i < leaves ==> (needs[i] <==> !Ready(Leaf(i)))
      ensures ok ==> (anyNeed <==> exists i: nat :: i < leaves && !Ready(Leaf(i)))
      ensures ok && !anyNeed ==> LeavesSafe()
      ensures Openable(env) ==> ok
    {
      needs, anyNeed := [], false;
      for i := 0 to leaves
        invariant |needs| == i
        invariant forall k: nat :: k < i ==> (needs[k] <==> !Ready(Leaf(k)))
        invariant anyNeed <==> exists k: nat :: k < i && !Ready(Leaf(k))
        invariant forall k: nat :: k < i ==> !Unfit(Leaf(k))
      {
        if !env.opens(Leaf(i)) {
          return false, [], false;
        }
        var ready := Passes(Leaf(i), 0);
        if !ready && !env.legacy(Leaf(i)) {
          return false, [], false;
        }
        needs, anyNeed := needs + [!ready], anyNeed || !ready;
      }
      ok := true;
    }

    lemma AllCaptured()
      requires Valid() && !Uncaptured(Root) && (Ns in dacl ==> !Uncaptured(Ns))
      requires forall i: nat :: i < leaves ==> !Uncaptured(Leaf(i))
      ensures !MissesCapture()
    {
      if o :| o in dacl && Uncaptured(o) {
        assert o.Leaf? && o.i < leaves;
      }
    }

    method Captured(needs: seq<bool>, rootNeeds: bool) returns (ok: bool)
      requires Valid() && |needs| == leaves && (rootNeeds <==> !Ready(Root))
      requires forall i: nat :: i < leaves ==> (needs[i] <==> !Ready(Leaf(i)))
      ensures ok <==> !MissesCapture()
    {
      if (rootNeeds && !env.captured(Root)) || (Ns in dacl && !env.captured(Ns)) {
        return false;
      }
      for i := 0 to leaves
        invariant forall k: nat :: k < i ==> !Uncaptured(Leaf(k))
      {
        if needs[i] && !env.captured(Leaf(i)) {
          return false;
        }
      }
      AllCaptured();
      return true;
    }

    // Every check before the first change; None is the go-ahead.
    method Preflight() returns (stop: Option<Outcome>, needs: seq<bool>, rootNeeds: bool)
      requires Valid()
      ensures stop.Some? ==>
                stop.value.Refused? || (stop.value.Unneeded? && forall o :: o in dacl ==> env.safe(dacl[o]))
      ensures stop.None? ==> |needs| == leaves && (!rootNeeds ==> env.safe(dacl[Root]))
      ensures stop.None? ==> forall i: nat :: i < leaves && !needs[i] ==> env.safe(dacl[Leaf(i)])
      ensures Openable(env) ==> stop != Some(Refused)
      ensures stop == Some(Refused) <==> MustRefuse() || (!AllSet() && MissesCapture())
      ensures stop == Some(Unneeded) <==> AllSet()
    {
      needs, rootNeeds := [], false;
      if !env.opens(Root) {
        return Some(Refused), needs, rootNeeds;
      }
      rootNeeds := !Passes(Root, 0);
      if rootNeeds && !env.legacy(Root) {
        return Some(Refused), needs, rootNeeds;
      }
      if Ns !in dacl && !rootNeeds {
        AllSafe();
        AllReady();
        return Some(Unneeded), needs, rootNeeds;
      }
      var nsReady := true;
      if Ns in dacl {
        if !env.opens(Ns) {
          return Some(Refused), needs, rootNeeds;
        }
        nsReady := Passes(Ns, 0);
        if !nsReady && !env.legacy(Ns) {
          return Some(Refused), needs, rootNeeds;
        }
      }
      var ok, anyNeed;
      ok, needs, anyNeed := Analyze();
      if !ok {
        return Some(Refused), needs, rootNeeds;
      }
      if nsReady && !anyNeed && !rootNeeds {
        AllSafe();
        AllReady();
        return Some(Unneeded), needs, rootNeeds;
      }
      AllFit();
      ok := Captured(needs, rootNeeds);
      stop := if ok then None else Some(Refused);
    }

    // What a migration of the lists `was` that came to changing them leaves behind.
    ghost predicate Carried(was: map<Obj, Desc>, r: Outcome)
      reads this
    {
      && Valid() && dacl.Keys == was.Keys
      && (r.Migrated? || r.RolledBack?)
      && (r.Migrated? ==>
            && (forall o :: o in dacl ==> env.safe(dacl[o]))
            && (forall i: nat :: i < leaves ==> env.wellShaped(Leaf(i)))
            && exists changed :: |changed| == r.changed && OnlyChanged(was, changed))
      && (r.RolledBack? ==>
            && (if r.failed.Some? then r.failed.value in dacl && !env.setting(r.failed.value).Applied?
                else !Checks(env))
            && (r.clean ==> (dacl == was <==> !(r.failed.Some? && LandedLate(env, r.failed.value, was))))
            && (forall o :: o in dacl ==> Survives(env, was[o], dacl[o], o, r))
            && ((forall o :: env.restoring(o).Works?) ==> r.clean))
    }

    method Carry(needs: seq<bool>, rootNeeds: bool) returns (r: Outcome)
      requires Valid() && |needs| == leaves && (!rootNeeds ==> env.safe(dacl[Root]))
      requires forall i: nat :: i < leaves && !needs[i] ==> env.safe(dacl[Leaf(i)])
      modifies this`dacl
      ensures Carried(old(dacl), r)
    {
      var saved := dacl;
      var ok, changed, failed := Transact(saved, needs, rootNeeds);
      if ok {
        return Migrated(|changed|);
      }
      var clean := Undo(saved, changed);
      r := RolledBack(clean, failed);
      assert clean ==> forall o :: o in dacl && Some(o) != failed ==> dacl[o] == saved[o];
      assert failed.Some? ==> dacl[failed.value] == LeftBehind(env, failed.value, saved[failed.value]);
    }

    /** All or nothing over any number of entries, both ways: a refusal, or finding nothing to do,
        changes nothing, and each happens exactly on its condition; after a clean roll back every
        descriptor is the captured one exactly when the tightening that was reported as failed, if
        any, did not land with another descriptor after all. */
    method Migrate() returns (r: Outcome)
      requires Valid()
      modifies this`dacl
      ensures Valid() && dacl.Keys == old(dacl.Keys)
      ensures r.Refused? <==> old(MustRefuse() || (!AllSet() && MissesCapture()))
      ensures r.Unneeded? <==> old(AllSet())
      ensures r.Refused? || r.Unneeded? ==> dacl == old(dacl)
      ensures r.Unneeded? ==> forall o :: o in dacl ==> env.safe(dacl[o])
      ensures r.Migrated? || r.RolledBack? ==> Carried(old(dacl), r)
      ensures Openable(env) ==> !r.Refused?
    {
      var stop, needs, rootNeeds := Preflight();
      if stop.Some? {
        return stop.value;
      }
      r := Carry(needs, rootNeeds);
    }
  }

  // Setting the list was reported as failed and had replaced the descriptor all the same.
  ghost predicate LandedLate(e: Env, o: Obj, was: map<Obj, Desc>) {
    o in was && LeftBehind(e, o, was[o]) != was[o]
  }

  // After a roll back: the captured descriptor, or one of the two ways to lose it.
  ghost predicate Survives(e: Env, was: Desc, now: Desc, o: Obj, r: Outcome)
    requires r.RolledBack?
  {
    || now == was
    || (!r.clean && e.restoring(o) == Breaks(now))
    || (r.failed == Some(o) && e.setting(o) == RejectedLate(now))
  }

  // No call fails and every tightened list is a safe one.
  ghost predicate Calm(e: Env) {
    Openable(e) && Checks(e) && forall o :: e.setting(o).Applied?
  }

  /** Without faults the migration succeeds. */
  method MigrateCalmly(s: Store) returns (r: Outcome)
    requires s.Valid() && Calm(s.env)
    modifies s`dacl
    ensures r.Unneeded? || r.Migrated?
    ensures forall o :: o in s.dacl ==> s.env.safe(s.dacl[o])
  {
    r := s.Migrate();
  }

  /** Once a migration has succeeded, a second one finds every list tightened, as long as the store
      can be opened and read. */
  method MigrateTwice(s: Store) returns (first: Outcome, again: Outcome)
    requires s.Valid() && forall o :: s.env.opens(o) && s.env.readable(o, 0)
    modifies s`dacl
    ensures first.Migrated? || first.Unneeded? ==> again.Unneeded?
  {
    first := s.Migrate();
    again := s.Migrate();
  }

  /** The losing run: the namespace's list is replaced although the call reports a
      failure, every restore works, and the roll back reports that it was clean. */
  method LoseNamespaceList(was: Desc, other: Desc) returns (s: Store, r: Outcome)
    requires was != other
    ensures r == RolledBack(true, Some(Ns)) && Ns in s.dacl && s.dacl[Ns] == other
  {
    var good := was + other + 1;
    var e := Env(_ => true, _ => true, _ => true, d => d == good, (_, _) => true,
                 o => if o == Ns then RejectedLate(other) else Applied(good),
                 _ => false, _ => true, _ => Works);
    var before := map[Root := good, Ns := was];
    s := new Store(e, 0, before);
    r := s.Migrate();
    assert LandedLate(e, Ns, before);
    assert Survives(e, before[Ns], s.dacl[Ns], Ns, r);
    assert s.dacl[Root] == before[Root] by { assert Survives(e, before[Root], s.dacl[Root], Root, r); }
  }
}
