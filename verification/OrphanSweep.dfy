/**
 The orphan sweep: the census of the process rows and the bounded walk up the parents
 of a row that decides whether it is an orphan.
 */
module OrphanSweep {
  type Pid = int
  type Time = int   // 0 is the missing creation time

  datatype Row = Row(pid: Pid, ppid: Pid, created: Time, exe: string, cmdline: string)

  // Text patterns, the launcher lists and the liveness probe are foreign.
  datatype Host = Host(
    own: string -> bool,
    launcher: string -> bool,
    nominated: string -> bool,
    provenDead: Pid -> bool)

  predicate FoundAt(s: string, t: string, i: nat) {
    i <= |s| - |t| && s[i..i + |t|] == t
  }

  predicate Contains(s: string, t: string) {
    exists i :: 0 <= i <= |s| && FoundAt(s, t, i)
  }

  predicate HubDaemon(cmdline: string) {
    Contains(cmdline, "daemon") && (Contains(cmdline, "mcphub.exe") || Contains(cmdline, "mcp.exe"))
  }

  // s is t with some text before and after it.
  ghost predicate Around(s: string, t: string) {
    exists before, after :: s == before + t + after
  }

  lemma ContainsExactly(s: string, t: string)
    ensures Contains(s, t) <==> Around(s, t)
  {
    if Contains(s, t) {
      var i :| 0 <= i <= |s| && FoundAt(s, t, i);
      assert s == s[..i] + t + s[i + |t|..];
    }
    if Around(s, t) {
      var before, after :| s == before + t + after;
      assert FoundAt(s, t, |before|);
    }
  }

  /** A command line is a hub daemon's exactly when it names the daemon command and one of the two
      hub images, anywhere and in any order. */
  lemma HubDaemonExactly(cmdline: string)
    ensures HubDaemon(cmdline) <==>
              Around(cmdline, "daemon") && (Around(cmdline, "mcphub.exe") || Around(cmdline, "mcp.exe"))
  {
    ContainsExactly(cmdline, "daemon");
    ContainsExactly(cmdline, "mcphub.exe");
    ContainsExactly(cmdline, "mcp.exe");
  }

  predicate Protects(h: Host, row: Row) {
    HubDaemon(row.cmdline) || h.launcher(row.cmdline)
  }

  // ---- the census ----

  // Later rows of a pid replace earlier ones.
  function Census(rows: seq<Row>): (byPid: map<Pid, Row>)
    ensures forall p :: p in byPid ==> byPid[p] in rows && byPid[p].pid == p
    ensures forall i :: 0 <= i < |rows| ==> rows[i].pid in byPid
  {
    if rows == [] then map[]
    else Census(rows[..|rows| - 1])[rows[|rows| - 1].pid := rows[|rows| - 1]]
  }

  // The last row of a pid is the one in the census.
  lemma {:induction false} CensusIsLast(rows: seq<Row>, i: nat)
    requires i < |rows| && forall k :: i < k < |rows| ==> rows[k].pid != rows[i].pid
    ensures rows[i].pid in Census(rows) && Census(rows)[rows[i].pid] == rows[i]
  {
    if i < |rows| - 1 {
      CensusIsLast(rows[..|rows| - 1], i);
      assert rows[|rows| - 1].pid != rows[i].pid;
    }
  }

  method IndexRows(rows: seq<Row>) returns (byPid: map<Pid, Row>)
    ensures byPid == Census(rows)
  {
    byPid := map[];
    for i := 0 to |rows|
      invariant byPid == Census(rows[..i])
    {
      assert rows[..i + 1][..i] == rows[..i];
      byPid := byPid[rows[i].pid := rows[i]];
    }
    assert rows[..|rows|] == rows;
  }

  // ---- ancestry, without any bound ----

  // The parent chain that starts at pid p, every pid but the last one in the census.
  ghost predicate Chain(byPid: map<Pid, Row>, path: seq<Pid>) {
    && |path| > 0
    && forall i :: 0 <= i < |path| - 1 ==> path[i] in byPid && path[i + 1] == byPid[path[i]].ppid
  }

  // The chain ends at a row without parent or at an absent pid that is proven dead.
  ghost predicate Ends(h: Host, byPid: map<Pid, Row>, p: Pid) {
    if p in byPid then byPid[p].ppid == 0 else h.provenDead(p)
  }

  ghost predicate Unprotected(h: Host, byPid: map<Pid, Row>, path: seq<Pid>) {
    forall i :: 0 <= i < |path| && path[i] in byPid ==> !Protects(h, byPid[path[i]])
  }

  // The chain does not run past a row without parent: pid 0 is not an ancestor.
  ghost predicate StopsAtRoot(byPid: map<Pid, Row>, path: seq<Pid>) {
    forall i :: 0 <= i < |path| - 1 && path[i] in byPid ==> byPid[path[i]].ppid != 0
  }

  ghost predicate OrphanChain(h: Host, byPid: map<Pid, Row>, path: seq<Pid>) {
    && Chain(byPid, path) && StopsAtRoot(byPid, path) && Unprotected(h, byPid, path)
    && Ends(h, byPid, path[|path| - 1])
  }

  // Ancestors of p up to and including the end of its chain.
  ghost predicate Ancestor(byPid: map<Pid, Row>, p: Pid, q: Pid) {
    exists path :: Chain(byPid, path) && StopsAtRoot(byPid, path) && path[0] == p && path[|path| - 1] == q
  }

  /** Parent chains from one pid that stop at roots agree as far as both go. */
  lemma {:induction false} ChainsAgree(byPid: map<Pid, Row>, a: seq<Pid>, b: seq<Pid>, k: nat)
    requires Chain(byPid, a) && Chain(byPid, b) && a[0] == b[0]
    requires k < |a| && k < |b|
    ensures a[k] == b[k]
  {
    if k > 0 {
      ChainsAgree(byPid, a, b, k - 1);
      assert a[k - 1 + 1] == byPid[a[k - 1]].ppid;
      assert b[k - 1 + 1] == byPid[b[k - 1]].ppid;
    }
  }

  /** No proper prefix of a chain that stops at roots can be an orphan chain. */
  lemma OrphanChainIsMaximal(h: Host, byPid: map<Pid, Row>, a: seq<Pid>, b: seq<Pid>)
    requires OrphanChain(h, byPid, a) && Chain(byPid, b) && StopsAtRoot(byPid, b) && a[0] == b[0]
    ensures |b| <= |a| && b == a[..|b|]
  {
    forall k | 0 <= k < |a| && k < |b| ensures a[k] == b[k] {
      ChainsAgree(byPid, a, b, k);
    }
    if |b| > |a| {
      assert false;
    }
  }

  /** An orphan chain never repeats a pid: cyclic ancestry is no orphan chain. */
  lemma OrphanChainIsSimple(h: Host, byPid: map<Pid, Row>, path: seq<Pid>, i: nat, j: nat)
    requires OrphanChain(h, byPid, path) && i < j < |path|
    ensures path[i] != path[j]
  {
    if path[i] == path[j] {
      TailIsChain(byPid, path, i);
      TailIsChain(byPid, path, j);
      ChainsAgree(byPid, path[i..], path[j..], |path| - 1 - j);
      assert false;
    }
  }

  lemma TailIsChain(byPid: map<Pid, Row>, path: seq<Pid>, i: nat)
    requires Chain(byPid, path) && i < |path|
    ensures Chain(byPid, path[i..])
  {
    forall k | 0 <= k < |path[i..]| - 1 ensures path[i..][k] in byPid && path[i..][k + 1] == byPid[path[i..][k]].ppid {
      assert path[i..][k] == path[i + k] && path[i..][k + 1] == path[i + k + 1];
    }
  }

  /** On an orphan chain there is no protector at any distance: it holds every ancestor. */
  lemma OrphanHasNoProtector(h: Host, byPid: map<Pid, Row>, path: seq<Pid>, q: Pid)
    requires OrphanChain(h, byPid, path) && Ancestor(byPid, path[0], q)
    ensures q in path && (q in byPid ==> !Protects(h, byPid[q]))
  {
    var up :| Chain(byPid, up) && StopsAtRoot(byPid, up) && up[0] == path[0] && up[|up| - 1] == q;
    OrphanChainIsMaximal(h, byPid, path, up);
    assert q == path[|up| - 1];
  }

  ghost predicate StaysIn(byPid: map<Pid, Row>, cycle: set<Pid>, q: Pid) {
    q in byPid && byPid[q].ppid in cycle && byPid[q].ppid != 0
  }

  /** A pid inside a parent cycle has no orphan chain of any length. */
  lemma {:induction false} CycleHasNoOrphanChain(h: Host, byPid: map<Pid, Row>, cycle: set<Pid>, path: seq<Pid>)
    requires forall q :: q in cycle ==> StaysIn(byPid, cycle, q)
    requires |path| > 0 && path[0] in cycle
    ensures !OrphanChain(h, byPid, path)
  {
    if Chain(byPid, path) {
      for i := 0 to |path| - 1
        invariant path[i] in cycle
      {
        assert StaysIn(byPid, cycle, path[i]);
      }
      assert StaysIn(byPid, cycle, path[|path| - 1]);
    }
  }

  // ---- the bounded walk ----

  const MaxDepth := 16

  ghost predicate Orphaned(h: Host, byPid: map<Pid, Row>, start: Pid) {
    exists path :: OrphanChain(h, byPid, path) && path[0] == start && |path| <= MaxDepth
  }

  /** A resolved chain longer than the walk's bound is spared. */
  lemma LongChainIsSpared(h: Host, byPid: map<Pid, Row>, path: seq<Pid>)
    requires OrphanChain(h, byPid, path) && |path| > MaxDepth
    ensures !Orphaned(h, byPid, path[0])
  {
    forall other | OrphanChain(h, byPid, other) && other[0] == path[0] ensures |other| > MaxDepth {
      OrphanChainIsMaximal(h, byPid, other, path);
    }
  }

  // What else ends the walk early: a protector, an absent pid not proven dead, a self-parent.
  ghost predicate Refused(h: Host, byPid: map<Pid, Row>, p: Pid) {
    if p in byPid then Protects(h, byPid[p]) || (byPid[p].ppid == p && p != 0) else !h.provenDead(p)
  }

  lemma RefusedIsNoOrphan(h: Host, byPid: map<Pid, Row>, path: seq<Pid>)
    requires Chain(byPid, path) && StopsAtRoot(byPid, path)
    requires |path| > MaxDepth || Refused(h, byPid, path[|path| - 1])
    ensures !Orphaned(h, byPid, path[0])
  {
    forall other | OrphanChain(h, byPid, other) && other[0] == path[0] ensures |other| > MaxDepth {
      OrphanChainIsMaximal(h, byPid, other, path);
      if |path| <= MaxDepth {
        var last := |path| - 1;
        assert other[last] == path[last];
        if last + 1 < |other| {
          OrphanChainIsSimple(h, byPid, other, last, last + 1);
        }
        assert false;
      }
    }
  }

  method Walk(h: Host, byPid: map<Pid, Row>, start: Pid) returns (orphan: bool)
    ensures orphan <==> Orphaned(h, byPid, start)
  {
    var ours, uncertain := false, false;
    var cur, depth := start, 0;
    ghost var path := [start];
    while depth < MaxDepth
      invariant 0 <= depth <= MaxDepth && |path| == depth + 1 && path[0] == start && path[depth] == cur
      invariant !ours && !uncertain
      invariant Chain(byPid, path) && StopsAtRoot(byPid, path) && Unprotected(h, byPid, path[..depth])
    {
      if cur !in byPid {
        if !h.provenDead(cur) {
          uncertain := true;
        }
        break;
      }
      var parent := byPid[cur];
      if HubDaemon(parent.cmdline) {
        ours := true;
        break;
      }
      if h.launcher(parent.cmdline) {
        ours := true;
        break;
      }
      if parent.ppid == 0 {
        break;
      }
      if parent.ppid == cur {
        uncertain := true;
        break;
      }
      path := path + [parent.ppid];
      cur, depth := parent.ppid, depth + 1;
    }
    if depth == MaxDepth && !ours {
      uncertain := true;
    }
    orphan := !ours && !uncertain;
    if orphan {
      assert OrphanChain(h, byPid, path);
    } else {
      RefusedIsNoOrphan(h, byPid, path);
    }
  }
}
