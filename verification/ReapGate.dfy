/** From the census to the attempted kills: nomination, filters, verdicts, and the kill loop. */
module ReapGate {
  import opened Wrappers
  import opened OrphanSweep
  import InPlace

  datatype Verdict = Unset | SnapshotDegraded | ConfigReferenced | ConfigScanDegraded | BelowAgeFloor | Eligible

  datatype Identity = Identity(pid: Pid, started: Time)

  datatype Orphan = Orphan(id: Identity, ppid: Pid, cmdline: string, age: int, exe: string,
                           verdict: Verdict, killErr: string)

  // The scan of the client configs, once per run.
  datatype Configs = Configs(referenced: string -> bool, degradedClients: nat)

  // What each foreign call answers for the i-th row; "" is success.
  datatype Killer = Killer(revalidate: (nat, Orphan) -> string, terminate: (nat, Orphan) -> string)

  const KillMinAge := 600

  // ---- nomination ----

  ghost predicate Nominated(h: Host, byPid: map<Pid, Row>, row: Row) {
    !h.own(row.cmdline) && !h.launcher(row.cmdline) && h.nominated(row.cmdline) && Orphaned(h, byPid, row.ppid)
  }

  function ToOrphan(now: Time, row: Row): Orphan {
    Orphan(Identity(row.pid, row.created), row.ppid, row.cmdline,
           if row.created == 0 then 0 else now - row.created, row.exe, Unset, "")
  }

  ghost function Nominees(h: Host, now: Time, byPid: map<Pid, Row>, rows: seq<Row>): seq<Orphan> {
    if rows == [] then []
    else Nominees(h, now, byPid, rows[..|rows| - 1]) +
         (if Nominated(h, byPid, rows[|rows| - 1]) then [ToOrphan(now, rows[|rows| - 1])] else [])
  }

  lemma {:induction false} NomineesExactly(h: Host, now: Time, byPid: map<Pid, Row>, rows: seq<Row>, o: Orphan)
    ensures o in Nominees(h, now, byPid, rows) <==>
            exists k :: 0 <= k < |rows| && Nominated(h, byPid, rows[k]) && o == ToOrphan(now, rows[k])
  {
    if rows != [] {
      var init, last := rows[..|rows| - 1], |rows| - 1;
      NomineesExactly(h, now, byPid, init, o);
      assert forall k :: 0 <= k < last ==> init[k] == rows[k];
    }
  }

  method FindOrphans(h: Host, now: Time, rows: seq<Row>) returns (out: seq<Orphan>)
    ensures out == Nominees(h, now, Census(rows), rows)
  {
    var byPid := IndexRows(rows);
    out := [];
    for i := 0 to |rows|
      invariant out == Nominees(h, now, byPid, rows[..i])
    {
      var row := rows[i];
      assert rows[..i + 1][..i] == rows[..i];
      if h.own(row.cmdline) || h.launcher(row.cmdline) || !h.nominated(row.cmdline) {
        continue;
      }
      var orphan := Walk(h, byPid, row.ppid);
      if !orphan {
        continue;
      }
      out := out + [ToOrphan(now, row)];
    }
    assert rows[..|rows|] == rows;
  }

  // ---- verdicts ----

  function Classify(o: Orphan, cfg: Configs, degraded: bool): (v: Verdict)
    ensures v == Eligible <==>
              !degraded && !cfg.referenced(o.cmdline) && cfg.degradedClients == 0 && o.age >= KillMinAge
  {
    if degraded then SnapshotDegraded
    else if cfg.referenced(o.cmdline) then ConfigReferenced
    else if cfg.degradedClients > 0 then ConfigScanDegraded
    else if o.age < KillMinAge then BelowAgeFloor
    else Eligible
  }

  function SkipReason(v: Verdict): string {
    match v
    case SnapshotDegraded => "snapshot degraded"
    case ConfigReferenced => "config referenced"
    case ConfigScanDegraded => "config scan degraded"
    case BelowAgeFloor => "below age floor"
    case Unset => ""
    case Eligible => ""
  }

  predicate Identified(o: Orphan) {
    o.exe != "" && o.id.started != 0 && o.cmdline != ""
  }

  // ---- the gate ----

  ghost function Stamp(o: Orphan, cfg: Configs, degraded: bool, dryRun: bool): Orphan {
    var v := Classify(o, cfg, degraded);
    o.(verdict := v, killErr := if !dryRun && v != Eligible then SkipReason(v) else o.killErr)
  }

  ghost predicate Targeted(k: Killer, i: nat, o: Orphan, cfg: Configs, degraded: bool) {
    Classify(o, cfg, degraded) == Eligible && Identified(o) && k.revalidate(i, Stamp(o, cfg, degraded, false)) == ""
  }

  // The identities a kill is attempted on, in row order.
  ghost function Attempts(k: Killer, s: seq<Orphan>, cfg: Configs, degraded: bool): seq<Identity> {
    if s == [] then []
    else Attempts(k, s[..|s| - 1], cfg, degraded) +
         (if Targeted(k, |s| - 1, s[|s| - 1], cfg, degraded) then [s[|s| - 1].id] else [])
  }

  lemma {:induction false} AttemptsExactly(k: Killer, s: seq<Orphan>, cfg: Configs, degraded: bool, id: Identity)
    ensures id in Attempts(k, s, cfg, degraded) <==>
            exists i :: 0 <= i < |s| && s[i].id == id && Targeted(k, i, s[i], cfg, degraded)
  {
    if s != [] {
      var init, last := s[..|s| - 1], |s| - 1;
      AttemptsExactly(k, init, cfg, degraded, id);
      assert forall i :: 0 <= i < last ==> init[i] == s[i];
    }
  }

  /** A degraded snapshot or any unreadable client config disables every kill. */
  lemma {:induction false} DegradedNeverKills(k: Killer, s: seq<Orphan>, cfg: Configs, degraded: bool)
    requires degraded || cfg.degradedClients > 0
    ensures Attempts(k, s, cfg, degraded) == []
  {
    if s != [] {
      DegradedNeverKills(k, s[..|s| - 1], cfg, degraded);
    }
  }

  class Reaper {
    const killer: Killer
    var attempts: seq<Identity>

    constructor (k: Killer)
      ensures killer == k && attempts == []
    {
      killer, attempts := k, [];
    }

    // The i-th row's kill: no proof, no attempt.
    method ReapOne(i: nat, o: Orphan) returns (err: string)
      modifies this`attempts
      ensures err == ReapResult(killer, i, o)
      ensures attempts == old(attempts) + (if Identified(o) && killer.revalidate(i, o) == "" then [o.id] else [])
    {
      if o.exe == "" || o.id.started == 0 || o.cmdline == "" {
        return "identity unavailable";
      }
      err := killer.revalidate(i, o);
      if err != "" {
        return;
      }
      attempts := attempts + [o.id];
      err := killer.terminate(i, o);
    }

    // The verdict pass writes the rows and attempts nothing.
    method StampAll(a: array<Orphan>, n: nat, cfg: Configs, dryRun: bool, degraded: bool)
      requires n <= a.Length
      modifies a
      ensures forall i :: 0 <= i < n ==> a[i] == Stamp(old(a[i]), cfg, degraded, dryRun)
      ensures forall i :: n <= i < a.Length ==> a[i] == old(a[i])
    {
      for i := 0 to n
        invariant forall k :: 0 <= k < i ==> a[k] == Stamp(old(a[k]), cfg, degraded, dryRun)
        invariant forall k :: i <= k < a.Length ==> a[k] == old(a[k])
      {
        var verdict := Classify(a[i], cfg, degraded);
        a[i] := a[i].(verdict := verdict);
        if !dryRun && verdict != Eligible {
          a[i] := a[i].(killErr := SkipReason(verdict));
        }
      }
    }

    // The kill pass over stamped rows.
    method ReapAll(a: array<Orphan>, n: nat)
      requires n <= a.Length
      modifies this`attempts, a
      ensures forall i :: 0 <= i < n ==> a[i] == Reaped(killer, i, old(a[i]))
      ensures forall i :: n <= i < a.Length ==> a[i] == old(a[i])
      ensures attempts == old(attempts) + Reaps(killer, old(a[..n]))
    {
      for i := 0 to n
        invariant attempts == old(attempts) + Reaps(killer, old(a[..i]))
        invariant forall k :: 0 <= k < i ==> a[k] == Reaped(killer, k, old(a[k]))
        invariant forall k :: i <= k < a.Length ==> a[k] == old(a[k])
      {
        assert old(a[..i + 1])[..i] == old(a[..i]);
        if a[i].verdict.Eligible? {
          var err := ReapOne(i, a[i]);
          a[i] := a[i].(killErr := err);
        }
      }
    }

    method Gate(a: array<Orphan>, n: nat, cfg: Configs, dryRun: bool, degraded: bool)
      requires n <= a.Length
      modifies this`attempts, a
      ensures forall i :: 0 <= i < n ==> a[i] == Outcome(killer, i, old(a[i]), cfg, degraded, dryRun)
      ensures forall i :: n <= i < a.Length ==> a[i] == old(a[i])
      ensures attempts == old(attempts) + (if dryRun then [] else Attempts(killer, old(a[..n]), cfg, degraded))
    {
      StampAll(a, n, cfg, dryRun, degraded);
      if dryRun {
        return;
      }
      ghost var stamped := a[..n];
      ReapAll(a, n);
      ReapsAreAttempts(killer, old(a[..n]), stamped, cfg, degraded);
    }
  }

  ghost function Reaped(k: Killer, i: nat, o: Orphan): Orphan {
    if o.verdict.Eligible? then o.(killErr := ReapResult(k, i, o)) else o
  }

  ghost function Reaps(k: Killer, s: seq<Orphan>): seq<Identity> {
    if s == [] then []
    else Reaps(k, s[..|s| - 1]) + (if ReapTried(k, |s| - 1, s[|s| - 1]) then [s[|s| - 1].id] else [])
  }

  ghost predicate ReapTried(k: Killer, i: nat, o: Orphan) {
    o.verdict.Eligible? && Identified(o) && k.revalidate(i, o) == ""
  }

  lemma {:induction false} ReapsAreAttempts(k: Killer, s: seq<Orphan>, stamped: seq<Orphan>, cfg: Configs,
                                            degraded: bool)
    requires |s| == |stamped| && forall i :: 0 <= i < |s| ==> stamped[i] == Stamp(s[i], cfg, degraded, false)
    ensures Reaps(k, stamped) == Attempts(k, s, cfg, degraded)
  {
    if s != [] {
      ReapsAreAttempts(k, s[..|s| - 1], stamped[..|s| - 1], cfg, degraded);
    }
  }

  ghost function ReapResult(k: Killer, i: nat, o: Orphan): string {
    if !Identified(o) then "identity unavailable"
    else if k.revalidate(i, o) != "" then k.revalidate(i, o)
    else k.terminate(i, o)
  }

  ghost function Outcome(k: Killer, i: nat, o: Orphan, cfg: Configs, degraded: bool, dryRun: bool): Orphan {
    if dryRun then Stamp(o, cfg, degraded, true) else Reaped(k, i, Stamp(o, cfg, degraded, false))
  }

  // ---- the whole sweep ----

  datatype Options = Options(minAge: int, confirmed: Option<set<Identity>>, dryRun: bool)

  function OldEnough(opts: Options): Orphan -> bool {
    (o: Orphan) => o.age >= opts.minAge
  }

  function Confirmed(confirmed: set<Identity>): Orphan -> bool {
    (o: Orphan) => o.id in confirmed
  }

  // The rows that reach the gate: old enough, and confirmed when a confirmation was given.
  ghost function Candidates(h: Host, now: Time, rows: seq<Row>, opts: Options): seq<Orphan> {
    var aged := InPlace.Kept(Nominees(h, now, Census(rows), rows), OldEnough(opts));
    if opts.confirmed.None? then aged else InPlace.Kept(aged, Confirmed(opts.confirmed.value))
  }

  /** Only a nominated, old enough and confirmed census row reaches the gate. */
  lemma CandidatesExactly(h: Host, now: Time, rows: seq<Row>, opts: Options, o: Orphan)
    ensures o in Candidates(h, now, rows, opts) <==>
            && (exists k :: 0 <= k < |rows| && Nominated(h, Census(rows), rows[k]) && o == ToOrphan(now, rows[k]))
            && o.age >= opts.minAge && (opts.confirmed.Some? ==> o.id in opts.confirmed.value)
  {
    var aged := InPlace.Kept(Nominees(h, now, Census(rows), rows), OldEnough(opts));
    NomineesExactly(h, now, Census(rows), rows, o);
    InPlace.KeptMembers(Nominees(h, now, Census(rows), rows), OldEnough(opts), o);
    if opts.confirmed.Some? {
      InPlace.KeptMembers(aged, Confirmed(opts.confirmed.value), o);
    }
  }

  /** Every attempted kill is on an eligible, confirmed orphan whose full identity was captured. */
  lemma AttemptIsJustified(h: Host, now: Time, rows: seq<Row>, opts: Options, k: Killer, cfg: Configs,
                           degraded: bool, id: Identity)
    requires id in Attempts(k, Candidates(h, now, rows, opts), cfg, degraded)
    ensures !degraded && cfg.degradedClients == 0 && (opts.confirmed.Some? ==> id in opts.confirmed.value)
    ensures exists i :: 0 <= i < |rows| && Justified(h, now, rows, cfg, i, id)
  {
    var s := Candidates(h, now, rows, opts);
    AttemptsExactly(k, s, cfg, degraded, id);
    var j :| 0 <= j < |s| && s[j].id == id && Targeted(k, j, s[j], cfg, degraded);
    CandidatesExactly(h, now, rows, opts, s[j]);
    var i :| 0 <= i < |rows| && Nominated(h, Census(rows), rows[i]) && s[j] == ToOrphan(now, rows[i]);
    assert Justified(h, now, rows, cfg, i, id);
  }

  ghost predicate Justified(h: Host, now: Time, rows: seq<Row>, cfg: Configs, i: nat, id: Identity)
    requires i < |rows|
  {
    var row := rows[i];
    && id == Identity(row.pid, row.created) && Nominated(h, Census(rows), row)
    && !cfg.referenced(row.cmdline) && row.exe != "" && row.created != 0 && row.cmdline != ""
    && now - row.created >= KillMinAge
  }

  /** And conversely: on a complete snapshot every such row that is old enough, confirmed and still
      the same process is attempted. */
  lemma JustifiedIsAttempted(h: Host, now: Time, rows: seq<Row>, opts: Options, k: Killer, cfg: Configs, i: nat,
                             id: Identity)
    requires cfg.degradedClients == 0 && forall n, o :: k.revalidate(n, o) == ""
    requires i < |rows| && Justified(h, now, rows, cfg, i, id)
    requires now - rows[i].created >= opts.minAge && (opts.confirmed.Some? ==> id in opts.confirmed.value)
    ensures id in Attempts(k, Candidates(h, now, rows, opts), cfg, false)
  {
    var s, o := Candidates(h, now, rows, opts), ToOrphan(now, rows[i]);
    CandidatesExactly(h, now, rows, opts, o);
    var j :| 0 <= j < |s| && s[j] == o;
    assert Targeted(k, j, s[j], cfg, false);
    AttemptsExactly(k, s, cfg, false, id);
  }

  method Select(h: Host, now: Time, rows: seq<Row>, opts: Options) returns (a: array<Orphan>, n: nat)
    ensures fresh(a) && n <= a.Length && a[..n] == Candidates(h, now, rows, opts)
  {
    var orphans := FindOrphans(h, now, rows);
    a := new Orphan[|orphans|](i requires 0 <= i < |orphans| => orphans[i]);
    assert a[..a.Length] == orphans;
    n := InPlace.Compact(a, a.Length, OldEnough(opts));
    if opts.confirmed.Some? {
      n := InPlace.Compact(a, n, Confirmed(opts.confirmed.value));
    }
  }

  method Sweep(h: Host, now: Time, rows: seq<Row>, opts: Options, cfg: Configs, degraded: bool, reaper: Reaper)
    returns (a: array<Orphan>, n: nat)
    modifies reaper`attempts
    ensures fresh(a) && n == |Candidates(h, now, rows, opts)| <= a.Length
    ensures forall i :: 0 <= i < n ==>
              a[i] == Outcome(reaper.killer, i, Candidates(h, now, rows, opts)[i], cfg, degraded, opts.dryRun)
    ensures reaper.attempts == old(reaper.attempts) +
              (if opts.dryRun then [] else Attempts(reaper.killer, Candidates(h, now, rows, opts), cfg, degraded))
  {
    a, n := Select(h, now, rows, opts);
    ghost var chosen := a[..n];
    reaper.Gate(a, n, cfg, opts.dryRun, degraded);
    assert forall i :: 0 <= i < n ==> a[i] == Outcome(reaper.killer, i, chosen[i], cfg, degraded, opts.dryRun);
  }
}
