/**
 The provider process observation: from one process snapshot, the processes that
 descend from a matched provider root, each labelled with its nearest root, and the
 prior generations that are still alive.
 */
module ProcessTree {
  import opened Wrappers

  type Pid = int
  type Time = int   // 0 is the missing creation time

  datatype Row = Row(pid: Pid, ppid: Pid, created: Time, exe: string, cmdline: string)

  datatype Generation = Generation(pid: Pid, ppid: Pid, root: Pid, started: Time, exe: string, cmdline: string)

  // Path comparison, command-line tokenizing and the working-directory probe are foreign
  // calls: two paths are equal when `canon` maps them to the same text.
  datatype Host = Host(canon: string -> string, tokens: string -> seq<string>, probe: Row -> Probe)
  datatype Probe = Equal | Different | Unknown

  datatype Identity = Identity(exe: string, args: seq<string>, valid: bool)

  datatype Observation = Unavailable | Complete(active: seq<Generation>)

  // ---- root matching ----

  predicate ArgsMatch(expected: seq<string>, argv: seq<string>) {
    |argv| == |expected| + 1 && argv[1..] == expected
  }

  datatype Match = No | Yes | Undecidable

  // A row without its image path is no absence proof when its arguments could match.
  function RootMatch(h: Host, id: Identity, row: Row): Match {
    if row.exe == "" then
      (if row.cmdline != "" && row.created != 0 && |h.tokens(row.cmdline)| > 0
          && ArgsMatch(id.args, h.tokens(row.cmdline))
       then Undecidable else No)
    else if h.canon(id.exe) != h.canon(row.exe) then No
    else if row.cmdline == "" || row.created == 0 then Undecidable
    else if |h.tokens(row.cmdline)| == 0 then Undecidable
    else if ArgsMatch(id.args, h.tokens(row.cmdline)) then Yes
    else No
  }

  // The command line is one program token followed by exactly the provider's arguments.
  ghost predicate Invokes(h: Host, id: Identity, row: Row) {
    exists program :: h.tokens(row.cmdline) == [program] + id.args
  }

  // Command line, creation time and tokens are there, so the arguments can be judged.
  predicate Judgeable(h: Host, row: Row) {
    row.cmdline != "" && row.created != 0 && h.tokens(row.cmdline) != []
  }

  lemma InvokesIsArgsMatch(h: Host, id: Identity, row: Row)
    ensures Invokes(h, id, row) <==> ArgsMatch(id.args, h.tokens(row.cmdline))
  {
    var argv := h.tokens(row.cmdline);
    if ArgsMatch(id.args, argv) {
      assert argv == [argv[0]] + id.args;
    }
  }

  /** What a row is to a provider root: a match exactly when it runs the provider's image with the
      provider's arguments and nothing else, no match exactly when its image is another one or its
      arguments are known to differ, and otherwise undecidable.  Without an image path, arguments
      that are unknown or differ are no match, and equal ones are undecidable. */
  lemma RootMatchExactly(h: Host, id: Identity, row: Row)
    ensures RootMatch(h, id, row) == Yes <==>
              row.exe != "" && h.canon(row.exe) == h.canon(id.exe) && Judgeable(h, row) && Invokes(h, id, row)
    ensures row.exe != "" ==>
              (RootMatch(h, id, row) == No <==>
                 h.canon(row.exe) != h.canon(id.exe) || (Judgeable(h, row) && !Invokes(h, id, row)))
    ensures row.exe == "" ==>
              (RootMatch(h, id, row) == No <==> !(Judgeable(h, row) && Invokes(h, id, row)))
  {
    InvokesIsArgsMatch(h, id, row);
  }

  predicate IsRoot(h: Host, id: Identity, row: Row) {
    RootMatch(h, id, row) == Yes && h.probe(row) == Equal
  }

  // The row could not be classified either way.
  predicate Unclear(h: Host, id: Identity, row: Row) {
    RootMatch(h, id, row) == Undecidable || (RootMatch(h, id, row) == Yes && h.probe(row) == Unknown)
  }

  predicate RowComplete(row: Row) {
    row.pid != 0 && row.created != 0 && row.exe != "" && row.cmdline != ""
  }

  predicate SameGeneration(h: Host, g: Generation, row: Row) {
    g.started == row.created && h.canon(g.exe) == h.canon(row.exe) && g.cmdline == row.cmdline
  }

  function FromRow(row: Row, root: Pid): Generation {
    Generation(row.pid, row.ppid, root, row.created, row.exe, row.cmdline)
  }

  // ---- the census as a parent function ----

  // Repeated rows of one pid agree, and no row lacks its pid.
  ghost predicate WellFormed(rows: seq<Row>) {
    && (forall i :: 0 <= i < |rows| ==> rows[i].pid != 0)
    && (forall i, j :: 0 <= i < |rows| && 0 <= j < |rows| && rows[i].pid == rows[j].pid ==> rows[i] == rows[j])
  }

  ghost predicate Indexes(byPid: map<Pid, Row>, rows: seq<Row>) {
    && (forall i :: 0 <= i < |rows| ==> rows[i].pid in byPid && byPid[rows[i].pid] == rows[i])
    && (forall p :: p in byPid ==> byPid[p] in rows && byPid[p].pid == p)
  }

  // r is the nearest root on the parent chain of p, n steps up.
  ghost predicate NearestRoot(byPid: map<Pid, Row>, roots: set<Pid>, p: Pid, r: Pid, n: nat)
    decreases n
  {
    if p in roots then n == 0 && r == p
    else n > 0 && p in byPid && NearestRoot(byPid, roots, byPid[p].ppid, r, n - 1)
  }

  ghost predicate Descends(byPid: map<Pid, Row>, roots: set<Pid>, p: Pid, r: Pid) {
    exists n: nat :: NearestRoot(byPid, roots, p, r, n)
  }

  /** The parent chain is a function, so the nearest root is unique. */
  lemma {:induction false} NearestRootUnique(byPid: map<Pid, Row>, roots: set<Pid>, p: Pid, r: Pid, n: nat, r': Pid,
                                             n': nat)
    requires NearestRoot(byPid, roots, p, r, n) && NearestRoot(byPid, roots, p, r', n')
    ensures r == r' && n == n'
    decreases n
  {
    if p !in roots {
      NearestRootUnique(byPid, roots, byPid[p].ppid, r, n - 1, r', n' - 1);
    }
  }

  lemma {:induction false} NearestRootIsRoot(byPid: map<Pid, Row>, roots: set<Pid>, p: Pid, r: Pid, n: nat)
    requires NearestRoot(byPid, roots, p, r, n)
    ensures r in roots
    decreases n
  {
    if p !in roots {
      NearestRootIsRoot(byPid, roots, byPid[p].ppid, r, n - 1);
    }
  }

  /** Where the parent chain of p runs into a cycle without a root, p has none. */
  lemma {:induction false} CycleHasNoRoot(byPid: map<Pid, Row>, roots: set<Pid>, loop: set<Pid>, p: Pid, r: Pid, n: nat)
    requires loop !! roots && (forall q :: q in loop && q in byPid ==> byPid[q].ppid in loop)
    requires p in loop
    ensures !NearestRoot(byPid, roots, p, r, n)
    decreases n
  {
    if n > 0 && p in byPid {
      CycleHasNoRoot(byPid, roots, loop, byPid[p].ppid, r, n - 1);
    }
  }

  // ---- the fixpoint ----

  ghost predicate Sound(byPid: map<Pid, Row>, roots: set<Pid>, rootOf: map<Pid, Pid>) {
    && roots <= rootOf.Keys
    && forall p :: p in rootOf ==> Descends(byPid, roots, p, rootOf[p])
  }

  // One more row changes nothing.
  ghost predicate Closed(rows: seq<Row>, rootOf: map<Pid, Pid>) {
    forall i :: 0 <= i < |rows| && rows[i].ppid in rootOf ==> rows[i].pid in rootOf
  }

  lemma ChildDescends(byPid: map<Pid, Row>, roots: set<Pid>, row: Row, r: Pid)
    requires row.pid in byPid && byPid[row.pid] == row && row.pid !in roots && Descends(byPid, roots, row.ppid, r)
    ensures Descends(byPid, roots, row.pid, r)
  {
    var n: nat :| NearestRoot(byPid, roots, row.ppid, r, n);
    assert NearestRoot(byPid, roots, row.pid, r, n + 1);
  }

  /** A sound labelling that no row extends is the nearest-root function itself. */
  lemma {:induction false} ClosedIsComplete(rows: seq<Row>, byPid: map<Pid, Row>, roots: set<Pid>, rootOf: map<Pid,
                                            Pid>, p: Pid, r: Pid, n: nat)
    requires Indexes(byPid, rows) && Sound(byPid, roots, rootOf) && Closed(rows, rootOf)
    requires NearestRoot(byPid, roots, p, r, n)
    ensures p in rootOf && rootOf[p] == r
    decreases n
  {
    if p !in roots {
      ClosedIsComplete(rows, byPid, roots, rootOf, byPid[p].ppid, r, n - 1);
      var i :| 0 <= i < |rows| && rows[i] == byPid[p];
    }
    assert Descends(byPid, roots, p, rootOf[p]);
    var k: nat :| NearestRoot(byPid, roots, p, rootOf[p], k);
    NearestRootUnique(byPid, roots, p, r, n, rootOf[p], k);
  }

  method Propagate(rows: seq<Row>, byPid: map<Pid, Row>, roots: set<Pid>) returns (rootOf: map<Pid, Pid>)
    requires Indexes(byPid, rows)
    ensures forall p :: p in rootOf ==> rootOf[p] in roots && Descends(byPid, roots, p, rootOf[p])
    ensures forall p, r :: Descends(byPid, roots, p, r) ==> p in rootOf && rootOf[p] == r
  {
    rootOf := map p | p in roots :: p;
    forall p | p in rootOf ensures Descends(byPid, roots, p, rootOf[p]) {
      assert NearestRoot(byPid, roots, p, p, 0);
    }
    var changed := true;
    while changed
      invariant Sound(byPid, roots, rootOf)
      invariant !changed ==> Closed(rows, rootOf)
      decreases byPid.Keys - rootOf.Keys, changed
    {
      changed := false;
      ghost var before := rootOf;
      for i := 0 to |rows|
        invariant Sound(byPid, roots, rootOf)
        invariant before.Keys <= rootOf.Keys
        invariant !changed ==> rootOf == before && forall k :: 0 <= k < i && rows[k].ppid in rootOf ==>
                    rows[k].pid in rootOf
        invariant changed ==> exists p :: p in byPid && p in rootOf && p !in before
      {
        var row := rows[i];
        if row.pid !in rootOf && row.ppid in rootOf {
          ChildDescends(byPid, roots, row, rootOf[row.ppid]);
          rootOf := rootOf[row.pid := rootOf[row.ppid]];
          changed := true;
          assert row.pid in byPid && row.pid in rootOf && row.pid !in before;
        }
      }
    }
    forall p, r | Descends(byPid, roots, p, r) ensures p in rootOf && rootOf[p] == r {
      var n: nat :| NearestRoot(byPid, roots, p, r, n);
      ClosedIsComplete(rows, byPid, roots, rootOf, p, r, n);
    }
    forall p | p in rootOf ensures rootOf[p] in roots {
      var n: nat :| NearestRoot(byPid, roots, p, rootOf[p], n);
      NearestRootIsRoot(byPid, roots, p, rootOf[p], n);
    }
  }

  // ---- the passes around it ----

  method IndexRows(rows: seq<Row>) returns (byPid: Option<map<Pid, Row>>)
    ensures byPid.Some? <==> WellFormed(rows)
    ensures byPid.Some? ==> Indexes(byPid.value, rows)
  {
    var m: map<Pid, Row> := map[];
    for i := 0 to |rows|
      invariant Indexes(m, rows[..i])
      invariant WellFormed(rows[..i])
    {
      var row := rows[i];
      assert rows[..i + 1] == rows[..i] + [row];
      if row.pid == 0 {
        return None;
      }
      if row.pid in m {
        if m[row.pid] != row {
          assert m[row.pid] in rows[..i];
          return None;
        }
      } else {
        m := m[row.pid := row];
      }
    }
    assert rows[..|rows|] == rows;
    byPid := Some(m);
  }

  ghost function Roots(h: Host, id: Identity, byPid: map<Pid, Row>): set<Pid> {
    set p | p in byPid && IsRoot(h, id, byPid[p])
  }

  method FindRoots(h: Host, id: Identity, rows: seq<Row>, byPid: map<Pid, Row>) returns (roots: Option<set<Pid>>)
    requires Indexes(byPid, rows)
    ensures roots.Some? <==> forall i :: 0 <= i < |rows| ==> !Unclear(h, id, rows[i])
    ensures roots.Some? ==> roots.value == Roots(h, id, byPid)
  {
    var found: set<Pid>, classified: set<Pid> := {}, {};
    for i := 0 to |rows|
      invariant classified == set k | 0 <= k < i :: rows[k].pid
      invariant forall k :: 0 <= k < i ==> !Unclear(h, id, rows[k])
      invariant forall p :: p in found <==> p in classified && IsRoot(h, id, byPid[p])
    {
      var row := rows[i];
      if row.pid !in classified {
        classified := classified + {row.pid};
        var match' := RootMatch(h, id, row);
        if match' == Undecidable {
          return None;
        }
        if match' == Yes {
          match h.probe(row) {
            case Equal => found := found + {row.pid};
            case Different =>
            case Unknown => return None;
          }
        }
      } else {
        var k :| 0 <= k < i && rows[k].pid == row.pid;
        assert rows[k] == row;
      }
    }
    forall p | p in byPid ensures p in classified {
      var k :| 0 <= k < |rows| && rows[k] == byPid[p];
    }
    forall p | p in classified ensures p in byPid {
      var k :| 0 <= k < |rows| && rows[k].pid == p;
    }
    assert forall p :: p in found <==> p in Roots(h, id, byPid);
    roots := Some(found);
  }

  ghost predicate InTree(byPid: map<Pid, Row>, roots: set<Pid>, g: Generation) {
    g.pid in byPid && Descends(byPid, roots, g.pid, g.root) && g == FromRow(byPid[g.pid], g.root)
  }

  ghost predicate NoRepeats(gs: seq<Generation>) {
    forall i, j :: 0 <= i < j < |gs| ==> gs[i].pid != gs[j].pid
  }

  method CollectTree(rows: seq<Row>, byPid: map<Pid, Row>, roots: set<Pid>, rootOf: map<Pid, Pid>)
    returns (active: Option<seq<Generation>>)
    requires Indexes(byPid, rows)
    requires forall p :: p in rootOf ==> Descends(byPid, roots, p, rootOf[p])
    requires forall p, r :: Descends(byPid, roots, p, r) ==> p in rootOf && rootOf[p] == r
    ensures active.Some? <==> forall i, r :: 0 <= i < |rows| && Descends(byPid, roots, rows[i].pid, r) ==>
              RowComplete(rows[i])
    ensures active.Some? ==> NoRepeats(active.value) && forall g :: g in active.value <==> InTree(byPid, roots, g)
  {
    var out: seq<Generation>, present: set<Pid> := [], {};
    for i := 0 to |rows|
      invariant forall k, r :: 0 <= k < i && Descends(byPid, roots, rows[k].pid, r) ==> RowComplete(rows[k])
      invariant NoRepeats(out) && forall j :: 0 <= j < |out| ==> out[j].pid in present
      invariant forall p :: p in present ==> p in rootOf && p in byPid && FromRow(byPid[p], rootOf[p]) in out
      invariant forall g :: g in out ==> InTree(byPid, roots, g) && RowComplete(byPid[g.pid])
      invariant forall k :: 0 <= k < i && rows[k].pid in rootOf ==> FromRow(rows[k], rootOf[rows[k].pid]) in out
    {
      var row := rows[i];
      if row.pid in rootOf {
        if row.pid !in present {
          if !RowComplete(row) {
            assert Descends(byPid, roots, row.pid, rootOf[row.pid]);
            return None;
          }
          var g := FromRow(row, rootOf[row.pid]);
          assert InTree(byPid, roots, g);
          out := out + [g];
          present := present + {row.pid};
          }
      }
    }
    forall g | InTree(byPid, roots, g) ensures g in out {
      var k :| 0 <= k < |rows| && rows[k] == byPid[g.pid];
      assert rows[k].pid in rootOf;
    }
    active := Some(out);
  }

  // ---- prior generations ----

  ghost predicate Alive(h: Host, byPid: map<Pid, Row>, g: Generation) {
    g.pid in byPid && SameGeneration(h, g, byPid[g.pid])
  }

  // prior[i] is the first living prior generation of its pid, and g is that process now.
  ghost predicate FirstVoucher(h: Host, byPid: map<Pid, Row>, prior: seq<Generation>, i: nat, g: Generation)
    requires i < |prior|
  {
    && prior[i].pid == g.pid && Alive(h, byPid, prior[i]) && g == FromRow(byPid[g.pid], prior[i].root)
    && forall k :: 0 <= k < i && prior[k].pid == g.pid ==> !Alive(h, byPid, prior[k])
  }

  // A process outside the tree that one of the first n prior generations vouches for.
  ghost predicate Survivor(h: Host, byPid: map<Pid, Row>, roots: set<Pid>, prior: seq<Generation>, n: nat,
                           g: Generation)
    requires n <= |prior|
  {
    && (forall r :: !Descends(byPid, roots, g.pid, r))
    && exists i :: 0 <= i < n && FirstVoucher(h, byPid, prior, i, g)
  }

  predicate SameProcess(h: Host, a: Generation, b: Generation) {
    a.pid == b.pid && a.started == b.started && h.canon(a.exe) == h.canon(b.exe) && a.cmdline == b.cmdline
  }

  method Present(h: Host, gs: seq<Generation>, target: Generation) returns (yes: bool)
    ensures yes <==> exists j :: 0 <= j < |gs| && SameProcess(h, gs[j], target)
  {
    for i := 0 to |gs|
      invariant forall j :: 0 <= j < i ==> !SameProcess(h, gs[j], target)
    {
      if SameProcess(h, gs[i], target) {
        return true;
      }
    }
    return false;
  }

  ghost predicate Listed(gs: seq<Generation>, p: Pid) {
    exists j :: 0 <= j < |gs| && gs[j].pid == p
  }

  // Every listed generation repeats its process's row.
  ghost predicate RowsOf(byPid: map<Pid, Row>, gs: seq<Generation>) {
    forall g :: g in gs ==> g.pid in byPid && g == FromRow(byPid[g.pid], g.root)
  }

  method AddPrior(h: Host, byPid: map<Pid, Row>, roots: set<Pid>, tree: seq<Generation>, prior: seq<Generation>)
    returns (active: Option<seq<Generation>>)
    requires forall p :: p in byPid ==> byPid[p].pid == p
    requires NoRepeats(tree) && forall g :: g in tree <==> InTree(byPid, roots, g)
    ensures active.Some? <==> forall i :: 0 <= i < |prior| && prior[i].pid in byPid ==> RowComplete(byPid[prior[i].pid])
    ensures active.Some? ==> NoRepeats(active.value)
    ensures active.Some? ==>
              forall g :: g in active.value <==> InTree(byPid, roots, g) || Survivor(h, byPid, roots, prior, |prior|, g)
  {
    var out := tree;
    for i := 0 to |prior|
      invariant NoRepeats(out) && RowsOf(byPid, out) && tree <= out
      invariant forall k :: 0 <= k < i && prior[k].pid in byPid ==> RowComplete(byPid[prior[k].pid])
      invariant forall g :: g in out ==> InTree(byPid, roots, g) || Survivor(h, byPid, roots, prior, i, g)
      invariant forall k :: 0 <= k < i && Alive(h, byPid, prior[k]) ==> Listed(out, prior[k].pid)
    {
      var g := prior[i];
      if g.pid in byPid {
        if !RowComplete(byPid[g.pid]) {
          return None;
        }
        if SameGeneration(h, g, byPid[g.pid]) {
          var listed := Present(h, out, g);
          if listed {
            assert Listed(out, g.pid);
          } else {
            forall j | 0 <= j < |out| ensures out[j].pid != g.pid {
              assert out[j] in out && !SameProcess(h, out[j], g);
            }
            var added := FromRow(byPid[g.pid], g.root);
            NotListedIsSurvivor(h, byPid, roots, prior, i, tree, out, added);
            ListedGrows(out, added);
            out := out + [added];
          }
        }
      }
    }
    forall g | Survivor(h, byPid, roots, prior, |prior|, g) ensures g in out {
      SurvivorIsListed(h, byPid, roots, prior, out, g);
    }
    active := Some(out);
  }

  lemma ListedGrows(gs: seq<Generation>, g: Generation)
    ensures Listed(gs + [g], g.pid)
    ensures forall p :: Listed(gs, p) ==> Listed(gs + [g], p)
  {
    assert (gs + [g])[|gs|] == g;
    forall p | Listed(gs, p) ensures Listed(gs + [g], p) {
      var j :| 0 <= j < |gs| && gs[j].pid == p;
      assert (gs + [g])[j].pid == p;
    }
  }

  lemma DescendantIsListed(byPid: map<Pid, Row>, roots: set<Pid>, out: seq<Generation>, p: Pid, r: Pid)
    requires p in byPid && byPid[p].pid == p && Descends(byPid, roots, p, r)
    requires forall t :: InTree(byPid, roots, t) ==> t in out
    ensures Listed(out, p)
  {
    assert InTree(byPid, roots, FromRow(byPid[p], r));
  }

  lemma NotListedIsSurvivor(h: Host, byPid: map<Pid, Row>, roots: set<Pid>, prior: seq<Generation>, i: nat,
                            tree: seq<Generation>, out: seq<Generation>, g: Generation)
    requires forall p :: p in byPid ==> byPid[p].pid == p
    requires i < |prior| && tree <= out && forall t :: InTree(byPid, roots, t) ==> t in tree
    requires forall k :: 0 <= k < i && Alive(h, byPid, prior[k]) ==> Listed(out, prior[k].pid)
    requires forall j :: 0 <= j < |out| ==> out[j].pid != g.pid
    requires prior[i].pid == g.pid && Alive(h, byPid, prior[i]) && g == FromRow(byPid[g.pid], prior[i].root)
    ensures Survivor(h, byPid, roots, prior, i + 1, g)
  {
    assert FirstVoucher(h, byPid, prior, i, g);
    forall r ensures !Descends(byPid, roots, g.pid, r) {
      if Descends(byPid, roots, g.pid, r) {
        DescendantIsListed(byPid, roots, out, g.pid, r);
      }
    }
  }

  lemma SurvivorIsListed(h: Host, byPid: map<Pid, Row>, roots: set<Pid>, prior: seq<Generation>,
                         out: seq<Generation>, g: Generation)
    requires forall k :: 0 <= k < |prior| && Alive(h, byPid, prior[k]) ==> Listed(out, prior[k].pid)
    requires forall t :: t in out ==> InTree(byPid, roots, t) || Survivor(h, byPid, roots, prior, |prior|, t)
    requires Survivor(h, byPid, roots, prior, |prior|, g)
    ensures g in out
  {
    var i :| 0 <= i < |prior| && FirstVoucher(h, byPid, prior, i, g);
    assert Listed(out, prior[i].pid);
    var j :| 0 <= j < |out| && out[j].pid == g.pid;
    assert out[j] in out;
    assert !InTree(byPid, roots, out[j]) by {
      assert !Descends(byPid, roots, g.pid, out[j].root);
    }
    var k :| 0 <= k < |prior| && FirstVoucher(h, byPid, prior, k, out[j]);
    assert i == k;
  }

  // ---- the whole observation ----

  ghost predicate Decidable(h: Host, id: Identity, prior: seq<Generation>, rows: seq<Row>, byPid: map<Pid, Row>) {
    && (forall i :: 0 <= i < |rows| ==> !Unclear(h, id, rows[i]))
    && (forall i, r :: 0 <= i < |rows| && Descends(byPid, Roots(h, id, byPid), rows[i].pid, r) ==> RowComplete(rows[i]))
    && (forall i :: 0 <= i < |prior| && prior[i].pid in byPid ==> RowComplete(byPid[prior[i].pid]))
  }

  ghost predicate Belongs(h: Host, id: Identity, prior: seq<Generation>, byPid: map<Pid, Row>, g: Generation) {
    InTree(byPid, Roots(h, id, byPid), g) || Survivor(h, byPid, Roots(h, id, byPid), prior, |prior|, g)
  }

  // The index of a consistent census.
  ghost function Index(rows: seq<Row>): (m: map<Pid, Row>)
    requires WellFormed(rows)
    ensures Indexes(m, rows)
  {
    map row | row in rows :: row.pid := row
  }

  // What an observation must be.
  ghost predicate Right(h: Host, id: Identity, prior: seq<Generation>, rows: seq<Row>, o: Observation) {
    && (o.Complete? <==> id.valid && WellFormed(rows) && Decidable(h, id, prior, rows, Index(rows)))
    && (o.Complete? ==> NoRepeats(o.active) && forall g :: g in o.active <==> Belongs(h, id, prior, Index(rows), g))
  }

  /** Complete exactly on a consistent, decidable census, and then exactly the tree and the survivors, each once. */
  method Observe(h: Host, id: Identity, prior: seq<Generation>, rows: seq<Row>) returns (o: Observation)
    ensures Right(h, id, prior, rows, o)
  {
    if !id.valid {
      return Unavailable;
    }
    var indexed := IndexRows(rows);
    if indexed.None? {
      return Unavailable;
    }
    var byPid := indexed.value;
    IndexUnique(rows, byPid, Index(rows));
    var roots := FindRoots(h, id, rows, byPid);
    if roots.None? {
      return Unavailable;
    }
    var rootOf := Propagate(rows, byPid, roots.value);
    var tree := CollectTree(rows, byPid, roots.value, rootOf);
    if tree.None? {
      return Unavailable;
    }
    var active := AddPrior(h, byPid, roots.value, tree.value, prior);
    if active.None? {
      return Unavailable;
    }
    return Complete(active.value);
  }

  lemma IndexUnique(rows: seq<Row>, a: map<Pid, Row>, b: map<Pid, Row>)
    requires Indexes(a, rows) && Indexes(b, rows)
    ensures a == b
  {
    forall p | p in a ensures p in b && b[p] == a[p] {
      var i :| 0 <= i < |rows| && rows[i] == a[p];
    }
    forall p | p in b ensures p in a {
      var i :| 0 <= i < |rows| && rows[i] == b[p];
    }
  }

  /** A descendant of a root, or the process of a prior generation, whose creation time, image or
      command line is missing makes the observation unavailable: a gap is never read as absence. */
  lemma GapIsUnavailable(h: Host, id: Identity, prior: seq<Generation>, rows: seq<Row>, o: Observation, row: Row)
    requires Right(h, id, prior, rows, o) && row in rows
    requires row.created == 0 || row.exe == "" || row.cmdline == ""
    requires WellFormed(rows) ==>
               || (exists r :: Descends(Index(rows), Roots(h, id, Index(rows)), row.pid, r))
               || (exists g :: g in prior && g.pid == row.pid)
    ensures o.Unavailable?
  {
    if WellFormed(rows) {
      assert Indexes(Index(rows), rows);
    }
  }

  /** The order and repetition of snapshot rows do not matter: both observations are complete or
      neither is, and complete ones list the same generations. */
  lemma RowOrderIrrelevant(h: Host, id: Identity, prior: seq<Generation>, a: seq<Row>, b: seq<Row>, o: Observation,
                           o': Observation)
    requires forall row :: row in a <==> row in b
    requires Right(h, id, prior, a, o) && Right(h, id, prior, b, o')
    ensures o.Complete? <==> o'.Complete?
    ensures o.Complete? ==> forall g :: g in o.active <==> g in o'.active
  {
    SameRowsSameVerdict(h, id, prior, a, b);
    SameRowsSameVerdict(h, id, prior, b, a);
  }

  lemma SameRowsSameVerdict(h: Host, id: Identity, prior: seq<Generation>, a: seq<Row>, b: seq<Row>)
    requires forall row :: row in a <==> row in b
    ensures WellFormed(a) ==> WellFormed(b) && Index(a) == Index(b)
    ensures WellFormed(a) && Decidable(h, id, prior, a, Index(a)) ==> Decidable(h, id, prior, b, Index(b))
  {
    forall i | 0 <= i < |b| ensures b[i] in a {
      assert b[i] in b;
    }
    if WellFormed(a) {
      assert Index(a) == Index(b) by {
        assert Indexes(Index(a), b) by {
          forall p | p in Index(a) ensures Index(a)[p] in b {
            assert Index(a)[p] in a;
          }
        }
        IndexUnique(b, Index(a), Index(b));
      }
    }
  }
}
