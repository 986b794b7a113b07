/**
 Storing the routed secrets: the vault file is rewritten whole on every change, a change can
 fail before or after the new file is in place, and a failed store takes back what it wrote.
 */
module Vault {
  import opened Wrappers
  import SecretRoute

  type Data = map<string, string>

  // One rewrite of the file: in place, not in place, or in place and still reported as failed.
  datatype Write = Stored | Lost | StoredLate

  datatype Env = Env(opens: nat -> bool, writes: nat -> Write)

  datatype Result = Persisted | Refused | Failed(at: nat, cleaned: bool)

  // `now` is `was` without the keys in `gone`.
  ghost predicate Without(was: Data, now: Data, gone: set<string>) {
    forall k :: (k in now <==> k in was && k !in gone) && (k in now ==> now[k] == was[k])
  }

  // `now` is `was` plus the values of the keys in `put`.
  ghost predicate With(was: Data, now: Data, values: Data, put: set<string>) {
    && (forall k :: k in now <==> k in was || k in put)
    && (forall k :: k in put ==> k in values)
    && forall k :: k in now ==> now[k] == if k in put then values[k] else was[k]
  }

  class File {
    const env: Env
    var disk: Option<Data>
    var openings: nat
    var written: nat

    constructor (e: Env, d: Option<Data>)
      ensures env == e && disk == d && openings == 0 && written == 0
    {
      env, disk, openings, written := e, d, 0, 0;
    }

    method Open() returns (mem: Option<Data>)
      modifies this`openings
      ensures mem == if env.opens(old(openings)) then disk else None
      ensures openings == old(openings) + 1
    {
      mem := if env.opens(openings) then disk else None;
      openings := openings + 1;
    }

    method Save(mem: Data) returns (ok: bool)
      modifies this`disk, this`written
      ensures written == old(written) + 1 && (ok <==> env.writes(old(written)).Stored?)
      ensures disk == if env.writes(old(written)).Lost? then old(disk) else Some(mem)
    {
      match env.writes(written) {
        case Stored => disk, ok := Some(mem), true;
        case Lost => ok := false;
        case StoredLate => disk, ok := Some(mem), false;
      }
      written := written + 1;
    }

    ghost predicate Distinct(keys: seq<string>) {
      forall i, j :: 0 <= i < j < |keys| ==> keys[i] != keys[j]
    }

    // Stops at the first key that is missing or cannot be removed.
    method DeleteRouted(keys: seq<string>) returns (ok: bool)
      modifies this
      ensures disk.Some? <==> old(disk.Some?)
      ensures disk.None? || keys == [] ==> ok
      ensures disk.Some? ==> exists gone :: gone <= Elements(keys) && Without(old(disk.value), disk.value, gone)
      ensures disk.Some? && ok ==> Without(old(disk.value), disk.value, Elements(keys))
      ensures keys != [] && disk.Some? ==>
                (ok <==>
                   && env.opens(old(openings)) && Distinct(keys) && (forall k :: k in keys ==> k in old(disk.value))
                   && forall n :: old(written) <= n < old(written) + |keys| ==> env.writes(n).Stored?)
    {
      ghost var was := disk;
      if |keys| == 0 {
        assert disk.Some? ==> Without(was.value, disk.value, {});
        return true;
      }
      var loaded := Open();
      if loaded.None? {
        assert disk.Some? ==> Without(was.value, disk.value, {});
        return disk.None?;
      }
      var mem := loaded.value;
      for i := 0 to |keys|
        invariant was.Some? && disk == Some(mem) && Without(was.value, mem, Elements(keys[..i]))
        invariant forall k :: k in keys[..i] ==> k in was.value
        invariant Distinct(keys[..i]) && written == old(written) + i
        invariant forall n :: old(written) <= n < written ==> env.writes(n).Stored?
      {
        assert Elements(keys[..i + 1]) == Elements(keys[..i]) + {keys[i]};
        if keys[i] !in mem {
          return false;
        }
        mem := mem - {keys[i]};
        ok := Save(mem);
        assert Without(was.value, mem, Elements(keys[..i + 1]));
        if !ok {
          return;
        }
      }
      assert keys[..|keys|] == keys;
      ok := true;
    }

    ghost predicate Storable(keys: seq<string>, d: Data) {
      forall k :: k in keys ==> SecretRoute.Settable(k) && k !in d
    }

    /** Stores every value, or nothing, or says at which key it failed and whether the rest was taken back. */
    method Persist(keys: seq<string>, values: Data) returns (r: Result)
      requires SecretRoute.Enumerates(keys, values)
      modifies this
      ensures keys == [] ==> r.Persisted? && disk == old(disk)
      ensures keys != [] ==>
                (r.Refused? <==> old(disk.None?) || !env.opens(old(openings)) || !Storable(keys, old(disk.value)))
      ensures r.Refused? ==> disk == old(disk)
      ensures keys != [] && !r.Refused? ==> disk.Some? && old(disk.Some?)
      ensures keys != [] && r.Persisted? ==> With(old(disk.value), disk.value, values, values.Keys)
      ensures r.Failed? ==> r.at < |keys| && !env.writes(old(written) + r.at).Stored?
      ensures r.Persisted? ==> forall w: nat :: old(written) <= w < old(written) + |keys| ==> env.writes(w).Stored?
      ensures r.Failed? && r.at == 0 ==> r.cleaned
      ensures r.Failed? ==> Partly(old(disk.value), disk.value, values)
      ensures r.Failed? && r.cleaned ==>
                With(old(disk.value), disk.value, values,
                     if env.writes(old(written) + r.at).Lost? then {} else {keys[r.at]})
    {
      if |keys| == 0 {
        return Persisted;
      }
      var mem := Open();
      if mem.None? {
        return Refused;
      }
      var clear := Check(keys, mem.value);
      if !clear {
        return Refused;
      }
      r := StoreAll(keys, values, mem.value);
    }

    method Check(keys: seq<string>, mem: Data) returns (ok: bool)
      ensures ok <==> Storable(keys, mem)
    {
      for i := 0 to |keys|
        invariant Storable(keys[..i], mem)
      {
        assert keys[..i + 1] == keys[..i] + [keys[i]];
        if !SecretRoute.Settable(keys[i]) || keys[i] in mem {
          return false;
        }
      }
      assert keys[..|keys|] == keys;
      ok := true;
    }

    // Stores in order and stops at the first write that fails; `late` is what that write left.
    method StoreFirst(keys: seq<string>, values: Data, start: Data) returns (n: nat, ghost late: set<string>)
      requires SecretRoute.Enumerates(keys, values) && disk == Some(start)
      modifies this
      ensures n <= |keys| && disk.Some? && With(start, disk.value, values, Elements(keys[..n]) + late)
      ensures forall w: nat :: old(written) <= w < old(written) + n ==> env.writes(w).Stored?
      ensures n == |keys| ==> late == {}
      ensures n < |keys| ==> !env.writes(old(written) + n).Stored?
      ensures n < |keys| ==> late == if env.writes(old(written) + n).Lost? then {} else {keys[n]}
    {
      var mem := start;
      late := {};
      for i := 0 to |keys|
        invariant forall w: nat :: old(written) <= w < old(written) + i ==> env.writes(w).Stored?
        invariant disk == Some(mem) && written == old(written) + i && With(start, mem, values, Elements(keys[..i]))
      {
        PutGrows(start, mem, values, keys, i);
        mem := mem[keys[i] := values[keys[i]]];
        var ok := Save(mem);
        if !ok {
          late := if env.writes(old(written) + i).Lost? then {} else {keys[i]};
          return i, late;
        }
      }
      assert Elements(keys[..|keys|]) + {} == Elements(keys[..|keys|]);
      n := |keys|;
    }

    method StoreAll(keys: seq<string>, values: Data, start: Data) returns (r: Result)
      requires SecretRoute.Enumerates(keys, values) && keys != [] && disk == Some(start) && Storable(keys, start)
      modifies this
      ensures disk.Some? && !r.Refused?
      ensures r.Persisted? ==> With(start, disk.value, values, values.Keys)
      ensures r.Failed? ==> r.at < |keys| && !env.writes(old(written) + r.at).Stored?
      ensures r.Persisted? ==> forall w: nat :: old(written) <= w < old(written) + |keys| ==> env.writes(w).Stored?
      ensures r.Failed? && r.at == 0 ==> r.cleaned
      ensures r.Failed? ==> Partly(start, disk.value, values)
      ensures r.Failed? && r.cleaned ==>
                With(start, disk.value, values, if env.writes(old(written) + r.at).Lost? then {} else {keys[r.at]})
    {
      var n, late := StoreFirst(keys, values, start);
      if n < |keys| {
        var cleaned := CleanUp(keys, n, start, values, late);
        return Failed(n, cleaned);
      }
      assert Elements(keys[..|keys|]) + {} == values.Keys;
      r := Persisted;
    }

    // After the store failed at keys[i]: take back the keys before it, and only those.
    method CleanUp(keys: seq<string>, i: nat, ghost start: Data, ghost values: Data, ghost late: set<string>)
      returns (cleaned: bool)
      requires i < |keys| && SecretRoute.Enumerates(keys, values) && Storable(keys, start) && late <= {keys[i]}
      requires disk.Some? && With(start, disk.value, values, Elements(keys[..i]) + late)
      modifies this
      ensures disk.Some? && Partly(start, disk.value, values)
      ensures (i == 0 ==> cleaned) && (cleaned ==> With(start, disk.value, values, late))
    {
      ghost var left, put := disk.value, Elements(keys[..i]) + late;
      cleaned := DeleteRouted(keys[..i]);
      ghost var gone :| gone <= Elements(keys[..i]) && Without(left, disk.value, gone);
      TakeBack(start, left, disk.value, values, put, gone);
      if cleaned {
        TakeBack(start, left, disk.value, values, put, Elements(keys[..i]));
        assert keys[i] !in keys[..i];
        assert put - Elements(keys[..i]) == late;
      }
    }
  }

  // Some of the values have been added to start.
  ghost predicate Partly(start: Data, now: Data, values: Data) {
    exists put :: put <= values.Keys && With(start, now, values, put)
  }

  lemma PutGrows(start: Data, mem: Data, values: Data, keys: seq<string>, i: nat)
    requires i < |keys| && keys[i] in values && With(start, mem, values, Elements(keys[..i]))
    ensures Elements(keys[..i + 1]) == Elements(keys[..i]) + {keys[i]}
    ensures With(start, mem[keys[i] := values[keys[i]]], values, Elements(keys[..i]) + {keys[i]})
    ensures Elements(keys[..i]) + {} == Elements(keys[..i])
  {
    assert keys[..i + 1] == keys[..i] + [keys[i]];
  }

  // What a variable that held `value` has become, told from the text between its blanks.
  ghost predicate Becomes(sensitive: string -> bool, manifest: string, n: string, core: string, value: string,
                          now: string, disk: Option<Data>) {
    && (forall x :: SecretRoute.ShellForm(core, x) ==> now == "${env:" + x + "}")
    && ("secret:" <= core || (sensitive(n) && !("$" <= core)) ==>
          && now == "secret:" + SecretRoute.VaultKey(manifest, n)
          && disk.Some? && SecretRoute.Resolve(disk.value, now) == Some(value))
    && (sensitive(n) && !("$" <= core) && !("secret:" <= core) ==> now != value)
    && (!sensitive(n) && !("$" <= core) && !("secret:" <= core) ==> now == value)
  }

  ghost predicate Routes(sensitive: string -> bool, manifest: string, n: string, value: string, now: string,
                         disk: Option<Data>) {
    forall core :: SecretRoute.Core(value, core) ==> Becomes(sensitive, manifest, n, core, value, now, disk)
  }

  // The routed original is in the vault.
  ghost predicate Kept(t: SecretRoute.Treatment, value: string, disk: Option<Data>) {
    t.key.Some? ==> disk.Some? && t.key.value in disk.value && disk.value[t.key.value] == value
  }

  lemma RoutesRight(sensitive: string -> bool, manifest: string, n: string, value: string, disk: Option<Data>)
    requires Kept(SecretRoute.RouterOf(sensitive, manifest)(n, value), value, disk)
    ensures Routes(sensitive, manifest, n, value, SecretRoute.RouterOf(sensitive, manifest)(n, value).value, disk)
  {
    var t := SecretRoute.RouterOf(sensitive, manifest)(n, value);
    var k := SecretRoute.VaultKey(manifest, n);
    assert ("secret:" + k)[7..] == k && "secret:" <= "secret:" + k;
    forall core | SecretRoute.Core(value, core) ensures Becomes(sensitive, manifest, n, core, value, t.value, disk) {
      SecretRoute.RouterExactly(sensitive, manifest, n, value, core);
      SecretRoute.NoDollarNoShell(core);
      SecretRoute.DollarIsNoSecret(core);
      if sensitive(n) && !("$" <= core) && !("secret:" <= core) {
        SecretRoute.SensitiveIsHidden(sensitive, manifest, n, value, core);
      }
    }
  }

  ghost predicate Collision(r: SecretRoute.Router, vars: Data) {
    exists a, b, k :: SecretRoute.Collides(r, vars, a, b, k)
  }

  // Some variable is routed ...
  ghost predicate RoutesSome(r: SecretRoute.Router, vars: Data) {
    exists n, k :: SecretRoute.RoutedTo(r, vars, n, k)
  }

  // ... to a key that the vault has already.
  ghost predicate Taken(r: SecretRoute.Router, vars: Data, d: Data) {
    exists n, k :: SecretRoute.RoutedTo(r, vars, n, k) && k in d
  }

  // The vault is missing, cannot be opened, or has one of the keys.
  ghost predicate Closed(f: File, r: SecretRoute.Router, vars: Data)
    reads f
  {
    f.disk.None? || !f.env.opens(f.openings) || Taken(r, vars, f.disk.value)
  }

  ghost predicate AllStored(env: Env) {
    forall w :: env.writes(w).Stored?
  }

  /** Routing and storing together.  On success every variable has become what the text it held
      asks for, a routed one resolves to what it held, and no older secret changed.  Two routed
      names with one key, or a vault that is missing, closed or has the key, refuse; otherwise,
      with working writes, it succeeds. */
  method RouteAndStore(e: SecretRoute.Environment, f: File, sensitive: string -> bool, manifest: string,
                       names: seq<string>)
    returns (ok: bool)
    requires SecretRoute.Enumerates(names, e.vars)
    modifies e, f
    ensures ok ==> e.vars.Keys == old(e.vars.Keys)
    ensures ok ==> forall n :: n in old(e.vars) ==> Routes(sensitive, manifest, n, old(e.vars)[n], e.vars[n], f.disk)
    ensures ok ==> OlderKept(old(f.disk), f.disk)
    ensures var r, vars := SecretRoute.RouterOf(sensitive, manifest), old(e.vars);
            && (Collision(r, vars) ==> !ok)
            && (RoutesSome(r, vars) && old(Closed(f, r, vars)) ==> !ok)
            && (!Collision(r, vars) && !RoutesSome(r, vars) ==> ok)
            && (!Collision(r, vars) && !old(Closed(f, r, vars)) && AllStored(f.env) ==> ok)
  {
    var r := SecretRoute.RouterOf(sensitive, manifest);
    ghost var was := e.vars;
    var keys, values;
    ok, keys, values := e.Rewrite(r, names);
    if !ok {
      return;
    }
    ok := StoreRouted(f, keys, values, sensitive, manifest, was);
    if ok {
      AllRoute(sensitive, manifest, was, e.vars, values, f.disk);
    }
  }

  // Older secrets stay as they were.
  ghost predicate OlderKept(was: Option<Data>, now: Option<Data>) {
    was.Some? ==> now.Some? && forall k :: k in was.value ==> k in now.value && now.value[k] == was.value[k]
  }

  method StoreRouted(f: File, keys: seq<string>, values: Data, ghost sensitive: string -> bool, ghost manifest: string,
                     ghost vars: Data)
    returns (ok: bool)
    requires SecretRoute.HoldsRouted(SecretRoute.RouterOf(sensitive, manifest), vars, values)
    requires SecretRoute.Enumerates(keys, values)
    modifies f
    ensures ok ==> AllKept(values, f.disk) && OlderKept(old(f.disk), f.disk)
    ensures var r := SecretRoute.RouterOf(sensitive, manifest);
            && (RoutesSome(r, vars) && old(Closed(f, r, vars)) ==> !ok)
            && (!RoutesSome(r, vars) ==> ok)
            && (!old(Closed(f, r, vars)) && AllStored(f.env) ==> ok)
  {
    KeysTell(SecretRoute.RouterOf(sensitive, manifest), vars, keys, values, sensitive, manifest);
    var stored := f.Persist(keys, values);
    ok := stored.Persisted?;
  }

  ghost predicate AllKept(values: Data, disk: Option<Data>) {
    forall k :: k in values ==> disk.Some? && k in disk.value && disk.value[k] == values[k]
  }

  lemma AllRoute(sensitive: string -> bool, manifest: string, was: Data, now: Data, values: Data, disk: Option<Data>)
    requires var r := SecretRoute.RouterOf(sensitive, manifest);
             SecretRoute.RewrittenTo(r, was, now, was.Keys) && SecretRoute.HoldsRouted(r, was, values)
    requires AllKept(values, disk)
    ensures forall n :: n in was ==> n in now && Routes(sensitive, manifest, n, was[n], now[n], disk)
  {
    var r := SecretRoute.RouterOf(sensitive, manifest);
    forall n | n in was ensures n in now && Routes(sensitive, manifest, n, was[n], now[n], disk) {
      var t := SecretRoute.Treated(r, was, n);
      if t.key.Some? {
        assert SecretRoute.RoutedTo(r, was, n, t.key.value);
      }
      RoutesRight(sensitive, manifest, n, was[n], disk);
    }
  }

  // The keys to be stored are those of the routed variables, and every one of them is settable.
  lemma KeysTell(r: SecretRoute.Router, vars: Data, keys: seq<string>, values: Data, sensitive: string -> bool,
                 manifest: string)
    requires r == SecretRoute.RouterOf(sensitive, manifest) && SecretRoute.HoldsRouted(r, vars, values)
    requires forall k :: k in keys <==> k in values
    ensures keys != [] <==> RoutesSome(r, vars)
    ensures forall k :: k in keys ==> SecretRoute.Settable(k)
    ensures forall d: Data :: Taken(r, vars, d) <==> exists k :: k in keys && k in d
    ensures keys == [] ==> values == map[]
  {
    if keys != [] {
      assert keys[0] in values;
      var n :| SecretRoute.RoutedTo(r, vars, n, keys[0]);
    }
    forall k | k in keys ensures SecretRoute.Settable(k) {
      var n :| SecretRoute.RoutedTo(r, vars, n, k);
      SecretRoute.VaultKeyIsSettable(manifest, n);
    }
    forall d: Data ensures Taken(r, vars, d) <==> exists k :: k in keys && k in d {
      if k :| k in keys && k in d {
        var n :| SecretRoute.RoutedTo(r, vars, n, k);
      }
    }
  }

  ghost function Elements(s: seq<string>): set<string> {
    set k | k in s
  }

  /** With the clean-up done, a failed store leaves the vault as it was exactly when the failing write was lost. */
  lemma CleanFailureUnchanged(start: Data, now: Data, values: Data, key: string, w: Write)
    requires key in values && key !in start && With(start, now, values, if w.Lost? then {} else {key})
    ensures now == start <==> w.Lost?
  {
    if !w.Lost? {
      assert key in now;
    }
  }

  /** A write that is reported as failed after the new file is in place leaves its key behind. */
  method LateFailureLeavesKey() returns (f: File, r: Result)
    ensures r.Failed? && r.cleaned && f.disk == Some(map["K" := "v"])
  {
    f := new File(Env(n => true, n => StoredLate), Some(map[]));
    var keys, values := ["K"], map["K" := "v"];
    assert keys[0] == "K" && SecretRoute.Settable(keys[0]) && f.Storable(keys, map[]);
    assert f.env.writes(0).StoredLate?;
    r := f.Persist(keys, values);
    assert r.Failed? && r.at == 0;
    assert f.disk.value == values;
  }

  lemma TakeBack(start: Data, left: Data, now: Data, values: Data, put: set<string>, gone: set<string>)
    requires With(start, left, values, put) && Without(left, now, gone) && gone !! start.Keys
    ensures With(start, now, values, put - gone)
  {
  }
}
