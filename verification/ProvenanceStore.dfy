/**
 The adopted-entries store: a list of records rewritten as a whole under the store
 lock, the snapshot files beside it, and the two read-only decision loops that guard
 the destructive operations.  The records carry the rows of AdoptProtocol.  Each
 transaction is proved to be a run of that protocol's steps on its manifest's cell,
 also when a snapshot cannot be removed or the store cannot be written.
 */
module ProvenanceStore {
  import opened Wrappers
  import opened AdoptProtocol

  datatype TeardownPhase = NotStarted | StopSettled | ManagedRemoved | RestoreApplied

  datatype Provider = Provider(disableRecorded: bool, phase: TeardownPhase)

  datatype Record = Record(name: Manifest, row: Row, provider: Option<Provider>,
                           projectService: bool, sharedStdio: bool)

  // ---- the store as a mapping ----

  function Lookup(rs: seq<Record>, m: Manifest): (r: Option<Record>) {
    if rs == [] then None else if rs[0].name == m then Some(rs[0]) else Lookup(rs[1..], m)
  }

  ghost predicate Unique(rs: seq<Record>) {
    forall i, j :: 0 <= i < j < |rs| ==> rs[i].name != rs[j].name
  }

  function Without(rs: seq<Record>, m: Manifest): (kept: seq<Record>) {
    if rs == [] then [] else if rs[0].name == m then Without(rs[1..], m) else [rs[0]] + Without(rs[1..], m)
  }

  lemma {:induction false} LookupAt(rs: seq<Record>, i: nat)
    requires Unique(rs) && i < |rs|
    ensures Lookup(rs, rs[i].name) == Some(rs[i])
  {
    if i > 0 {
      assert rs[0].name != rs[i].name;
      LookupAt(rs[1..], i - 1);
    }
  }

  lemma {:induction false} LookupMisses(rs: seq<Record>, m: Manifest)
    ensures Lookup(rs, m).None? <==> forall i :: 0 <= i < |rs| ==> rs[i].name != m
    ensures Lookup(rs, m).Some? ==> Lookup(rs, m).value in rs && Lookup(rs, m).value.name == m
  {
    if rs != [] {
      LookupMisses(rs[1..], m);
      assert forall i :: 0 <= i < |rs| - 1 ==> rs[1..][i] == rs[i + 1];
    }
  }

  lemma {:induction false} WithoutDrops(rs: seq<Record>, m: Manifest, n: Manifest)
    ensures Lookup(Without(rs, m), n) == if n == m then None else Lookup(rs, n)
  {
    if rs != [] {
      WithoutDrops(rs[1..], m, n);
      if rs[0].name != m {
        assert Without(rs, m)[1..] == Without(rs[1..], m);
      }
    }
  }

  lemma {:induction false} WithoutIsPart(rs: seq<Record>, m: Manifest, r: Record)
    requires r in Without(rs, m)
    ensures r in rs && r.name != m
  {
    if !(rs[0].name != m && r == rs[0]) {
      WithoutIsPart(rs[1..], m, r);
    }
  }

  lemma FrontIsUnique(r: Record, rs: seq<Record>)
    requires Unique(rs) && forall x :: x in rs ==> x.name != r.name
    ensures Unique([r] + rs)
  {
  }

  lemma {:induction false} WithoutKeepsUnique(rs: seq<Record>, m: Manifest)
    requires Unique(rs)
    ensures Unique(Without(rs, m))
  {
    if rs != [] {
      var rest := Without(rs[1..], m);
      WithoutKeepsUnique(rs[1..], m);
      forall r | r in rest ensures r.name != rs[0].name {
        WithoutIsPart(rs[1..], m, r);
        var k :| 0 <= k < |rs[1..]| && rs[1..][k] == r;
        assert rs[k + 1] == r;
      }
      FrontIsUnique(rs[0], rest);
    }
  }

  lemma {:induction false} WithoutAppend(rs: seq<Record>, r: Record, m: Manifest)
    ensures Without(rs + [r], m) == Without(rs, m) + if r.name == m then [] else [r]
  {
    if rs == [] {
      assert rs + [r] == [r];
    } else {
      assert (rs + [r])[0] == rs[0] && (rs + [r])[1..] == rs[1..] + [r];
      WithoutAppend(rs[1..], r, m);
    }
  }

  lemma {:induction false} LookupAppend(rs: seq<Record>, r: Record, n: Manifest)
    ensures Lookup(rs + [r], n) == if Lookup(rs, n).Some? then Lookup(rs, n) else if r.name == n then Some(r) else None
  {
    if rs == [] {
      assert rs + [r] == [r];
    } else {
      assert (rs + [r])[0] == rs[0] && (rs + [r])[1..] == rs[1..] + [r];
      LookupAppend(rs[1..], r, n);
    }
  }

  lemma {:induction false} LookupUpdate(rs: seq<Record>, i: nat, r: Record, n: Manifest)
    requires Unique(rs) && i < |rs| && r.name == rs[i].name
    ensures Unique(rs[i := r])
    ensures Lookup(rs[i := r], n) == if n == r.name then Some(r) else Lookup(rs, n)
    decreases i
  {
    var us := rs[i := r];
    assert forall k :: 0 <= k < |us| ==> us[k].name == rs[k].name;
    if i == 0 {
      assert us[1..] == rs[1..];
    } else {
      assert us[1..] == rs[1..][i - 1 := r];
      LookupUpdate(rs[1..], i - 1, r, n);
      assert rs[0].name != rs[i].name;
    }
  }

  // ---- the decision loops ----

  datatype View = Unconstructible | Unreadable | Readable(entry: Entry)
  datatype Verdict = CommittedKeep | CrashReap | RecoveryKeep
  datatype Stat = Exists | Missing | StatError

  // What a decision reads: the client configs and the manifest file.
  datatype Outside = Outside(view: Client -> View, stat: Stat)

  ghost predicate Observes(o: Outside, s: Cell) {
    && (forall c :: o.view(c).Readable? ==> o.view(c).entry == Live(s, c))
    && (o.stat == Missing ==> !s.manifest)
  }

  predicate Clear(row: Row, v: View) {
    v.Readable? && v.entry != Hub(row.port)
  }

  // The adopt recorded that it switched the provider off: only a recovery can switch it on again.
  predicate ProviderOff(rec: Record) {
    rec.provider.Some? && rec.provider.value.disableRecorded
  }

  // Every client was readable and free of the hub binding, the manifest is gone, and no provider
  // waits to be switched on again.
  ghost predicate CrashEvidence(rec: Record, o: Outside) {
    && !rec.sharedStdio && !rec.projectService
    && (forall c :: c in rec.row.adoptClients ==> Clear(rec.row, o.view(c)))
    && o.stat == Missing && !ProviderOff(rec)
  }

  /** What the classifier reads agrees with AdoptProtocol's committed rows: observations
      of one cell that carry crash evidence rule out every committed signal of it. */
  lemma CrashEvidenceExcludesCommit(s: Cell, rec: Record, o: Outside)
    requires s.row == Some(rec.row) && rec.row.state == Adopting && Observes(o, s) && CrashEvidence(rec, o)
    ensures !Committed(s)
  {
    forall c | c in rec.row.adoptClients ensures !Bound(s, rec.row, c) {
      assert Clear(rec.row, o.view(c));
    }
  }

  /** The one committed-or-crash classifier.  Reaping demands positive evidence on
      every client and a proven absence of the manifest; anything else keeps. */
  method Classify(rec: Record, o: Outside) returns (v: Verdict)
    ensures v == CrashReap <==> CrashEvidence(rec, o)
    ensures ProviderOff(rec) ==> v == RecoveryKeep || v == CommittedKeep
    ensures v == CommittedKeep <==>
              && !rec.sharedStdio && !rec.projectService
              && (o.stat != Missing || exists c :: c in rec.row.adoptClients && !Clear(rec.row, o.view(c)))
  {
    if rec.sharedStdio || rec.projectService {
      return RecoveryKeep;
    }
    var left := rec.row.adoptClients;
    while left != {}
      invariant left <= rec.row.adoptClients
      invariant forall c :: c in rec.row.adoptClients - left ==> Clear(rec.row, o.view(c))
    {
      var c :| c in left;
      match o.view(c) {
        case Unconstructible => return CommittedKeep;
        case Unreadable => return CommittedKeep;
        case Readable(live) =>
          if live == Hub(rec.row.port) {
            return CommittedKeep;
          }
      }
      left := left - {c};
    }
    if o.stat != Missing {
      return CommittedKeep;
    }
    if ProviderOff(rec) {
      return RecoveryKeep;
    }
    return CrashReap;
  }

  // The verdict of the locked write-target classifier.
  datatype EntryVerdict = StillHub | RestoreDone | GenuineConflict

  function ClassifyEntry(row: Row, live: Entry, snapshot: Option<Entry>): EntryVerdict {
    if live == Hub(row.port) then StillHub
    else if live == (if snapshot.Some? then snapshot.value else Absent) then RestoreDone
    else GenuineConflict
  }

  // AdoptProtocol's proof obligation for one client, on what was read of it.
  ghost predicate ProvenAs(row: Row, c: Client, v: View, snaps: map<Client, Entry>) {
    v.Readable? && Proven(EMPTY.(snaps := snaps, live := map[c := v.entry]), row, c)
  }

  ghost predicate UnmutatedEvidence(rec: Record, o: Outside, snaps: map<Client, Entry>) {
    !rec.sharedStdio && forall c :: c in rec.row.clients ==> ProvenAs(rec.row, c, o.view(c), snaps)
  }

  /** Positive crash evidence, client by client: it succeeds exactly when AdoptProtocol's
      proof obligation holds of every recorded client. */
  method ProvablyUnmutated(rec: Record, o: Outside, snaps: map<Client, Entry>) returns (ok: bool)
    ensures ok <==> UnmutatedEvidence(rec, o, snaps)
  {
    if rec.sharedStdio {
      return false;
    }
    var left := rec.row.clients.Keys;
    while left != {}
      invariant left <= rec.row.clients.Keys
      invariant forall c :: c in rec.row.clients.Keys - left ==> ProvenAs(rec.row, c, o.view(c), snaps)
    {
      var c :| c in left;
      if !o.view(c).Readable? {
        return false;
      }
      match rec.row.clients[c] {
        case Pinned(e) =>
          if c !in snaps || snaps[c] != e {
            return false;
          }
          if ClassifyEntry(rec.row, o.view(c).entry, Some(e)) != RestoreDone {
            return false;
          }
        case Unpinned =>
          if ClassifyEntry(rec.row, o.view(c).entry, None) == StillHub {
            return false;
          }
      }
      left := left - {c};
    }
    return true;
  }

  datatype Outcome =
    | Done | Unchanged | NoRow | Failed
    | ProjectServiceRefused | StateRefused | CommittedRefused | RecoveryRefused | UnprovenRefused

  // Capture may replace this row.
  ghost predicate Replaceable(rec: Record, o: Outside, snaps: map<Client, Entry>) {
    rec.row.state == Adopting && CrashEvidence(rec, o) && UnmutatedEvidence(rec, o, snaps)
  }

  /** Whether capture may replace a prior row, and why not. */
  method Admit(rec: Record, o: Outside, snaps: map<Client, Entry>) returns (out: Outcome)
    ensures out == Done <==> Replaceable(rec, o, snaps)
    ensures ProviderOff(rec) ==> out !in {Done, UnprovenRefused}
    ensures out == RecoveryRefused ==> rec.row.state == Adopting && !rec.projectService && !CrashEvidence(rec, o)
    ensures out == UnprovenRefused ==> rec.row.state == Adopting && CrashEvidence(rec, o)
    ensures out != Failed
  {
    if rec.row.state != Adopting {
      return CommittedRefused;
    }
    if rec.projectService {
      return ProjectServiceRefused;
    }
    var verdict := Classify(rec, o);
    match verdict {
      case RecoveryKeep => return RecoveryRefused;
      case CommittedKeep => return CommittedRefused;
      case CrashReap =>
    }
    var unmutated := ProvablyUnmutated(rec, o, snaps);
    return if unmutated then Done else UnprovenRefused;
  }

  // ---- the transactions as runs of the protocol ----

  function RowOf(r: Option<Record>): Option<Row> {
    if r.Some? then Some(r.value.row) else None
  }

  // q takes the cell s to a cell with this row and these snapshots.
  ghost predicate Leads(q: Path, s: Cell, row: Option<Row>, snaps: map<Client, Entry>) {
    IsPath(q) && Origin(q) == s && Tip(q).row == row && Tip(q).snaps == snaps
  }

  lemma Quits(s: Cell) returns (q: Path)
    requires s.holder.Some?
    ensures Leads(q, s, s.row, s.snaps)
  {
    q := Go(From(s), Release, 0);
  }

  function AnchorRow(w: Work, now: Time): Row {
    Row(Adopting, now, w.port, w.plan, map[])
  }

  lemma AnchorLeads(s: Cell, now: Time) returns (q: Path)
    requires At(s, AdoptStart) && s.row.None?
    ensures Leads(q, s, Some(AnchorRow(s.holder.value, now)), s.snaps)
  {
    q := Go(From(s), Begin, now);
  }

  lemma UpsertBegins(s: Cell, now: Time) returns (b: Path)
    requires At(s, AdoptStart) && s.row.Some? && s.row.value.state == Adopting
    ensures IsPath(b) && Origin(b) == s && At(Tip(b), Classifying) && Upserting(Tip(b), s)
  {
    b := Go(From(s), Begin, now);
  }

  // Capture's upsert before the first removal: only its memory differs from s.
  ghost predicate Upserting(t: Cell, s: Cell) {
    && s.holder.Some? && t.holder.Some? && t == Goto(s, t.holder.value)
    && t.holder.value.lane == UpsertLane && Some(t.holder.value.read.row) == s.row
    && t.holder.value.port == s.holder.value.port && t.holder.value.plan == s.holder.value.plan
  }

  lemma UpsertClassifies(b: Path, s: Cell, rec: Record, o: Outside, now: Time) returns (q: Path)
    requires IsPath(b) && At(Tip(b), Classifying) && Upserting(Tip(b), s)
    requires s.row == Some(rec.row) && Observes(o, s) && CrashEvidence(rec, o)
    ensures Extends(q, b, 0) && At(Tip(q), Proving) && Upserting(Tip(q), s)
  {
    forall c | c in rec.row.adoptClients ensures !Bound(Tip(b), rec.row, c) {
      assert Clear(rec.row, o.view(c));
    }
    q := ClassifyAll(b, rec.row, 0, now);
    q := RemoveOne(q, b, CheckManifest(true), 0, now);
  }

  lemma UpsertProves(b: Path, s: Cell, rec: Record, o: Outside, now: Time) returns (q: Path)
    requires IsPath(b) && At(Tip(b), Proving) && Upserting(Tip(b), s)
    requires s.row == Some(rec.row) && Observes(o, s) && UnmutatedEvidence(rec, o, s.snaps)
    ensures Extends(q, b, 0) && At(Tip(q), Reaping) && Upserting(Tip(q), s)
  {
    forall c | c in rec.row.clients ensures Proven(Tip(b), rec.row, c) {
      assert ProvenAs(rec.row, c, o.view(c), s.snaps);
    }
    q := ProveAll(b, rec.row, 0, now);
    q := RemoveOne(q, b, StartReap, 0, now);
  }

  lemma UpsertEnds(b: Path, s: Cell, gone: set<Client>, now: Time) returns (q: Path, stopped: Path)
    requires IsPath(b) && Origin(b) == s && At(Tip(b), Reaping) && Upserting(Tip(b), s)
    ensures Leads(stopped, s, s.row, s.snaps - gone)
    ensures s.snaps.Keys <= gone ==> Leads(q, s, Some(AnchorRow(s.holder.value, now)), map[])
  {
    stopped := RemoveSome(b, gone, 0, now);
    q := stopped;
    if s.snaps.Keys <= gone {
      assert s.snaps - gone == map[];
      q := RemoveOne(stopped, b, FinishRemove, 0, now);
    }
  }

  lemma UpsertLeads(s: Cell, rec: Record, o: Outside, gone: set<Client>, now: Time) returns (q: Path, stopped: Path)
    requires At(s, AdoptStart) && s.row == Some(rec.row) && Observes(o, s) && Replaceable(rec, o, s.snaps)
    ensures Leads(stopped, s, s.row, s.snaps - gone)
    ensures s.snaps.Keys <= gone ==> Leads(q, s, Some(AnchorRow(s.holder.value, now)), map[])
  {
    q := UpsertBegins(s, now);
    q := UpsertClassifies(q, s, rec, o, now);
    q := UpsertProves(q, s, rec, o, now);
    q, stopped := UpsertEnds(q, s, gone, now);
  }

  // Any removal: some snapshots, and the row once none is left.
  lemma RemovalLeads(s: Cell, gone: set<Client>, now: Time) returns (q: Path, stopped: Path)
    requires s.holder.Some? && Removing(s.holder.value.stage)
    ensures Leads(stopped, s, s.row, s.snaps - gone)
    ensures s.snaps.Keys <= gone && !(At(s, Reaping) && s.holder.value.lane == UpsertLane) ==> Leads(q, s, None, map[])
  {
    stopped := RemoveSome(From(s), gone, 0, now);
    q := stopped;
    if s.snaps.Keys <= gone {
      assert s.snaps - gone == map[];
      q := RemoveOne(stopped, From(s), FinishRemove, 0, now);
    }
  }

  lemma FinalizeLeads(s: Cell, now: Time) returns (q: Path)
    requires At(s, Capturing) && s.row.Some? && s.holder.value.pins.Keys == s.holder.value.plan
    ensures Leads(q, s, Some(s.row.value.(clients := s.holder.value.pins, updatedAt := now)), s.snaps)
  {
    q := Go(From(s), Finalize, now);
  }

  lemma PromoteLeads(s: Cell, now: Time) returns (q: Path)
    requires At(s, Executing) && s.row.Some?
    ensures Leads(q, s, Some(s.row.value.(state := Adopted, updatedAt := now)), s.snaps)
  {
    q := Go(From(s), Promote, now);
  }

  lemma MarkLeads(s: Cell, now: Time) returns (q: Path)
    requires At(s, DeAdoptStart) && s.row.Some? && s.row.value.state != DeAdopting
    ensures Leads(q, s, Some(s.row.value.(state := DeAdopting, updatedAt := now)), s.snaps)
  {
    q := Go(From(s), Mark(false), now);
  }

  lemma TouchLeads(s: Cell, now: Time) returns (q: Path)
    requires At(s, Restoring) && s.row.Some?
    ensures Leads(q, s, Some(s.row.value.(updatedAt := now)), s.snaps)
  {
    q := Go(From(s), Touch, now);
  }

  // ---- the transactions ----

  // The store write: it lands, lands and still reports an error, or fails.
  datatype Write = Lands | LandsWithError | Fails

  function PhaseIndex(p: TeardownPhase): nat {
    match p
    case NotStarted => 0
    case StopSettled => 1
    case ManagedRemoved => 2
    case RestoreApplied => 3
  }

  ghost predicate CanAdvance(before: Option<Record>, expected: TeardownPhase, next: TeardownPhase) {
    && before.Some? && before.value.row.state == DeAdopting && !before.value.projectService
    && before.value.provider.Some? && before.value.provider.value.phase == expected
    && PhaseIndex(next) == PhaseIndex(expected) + 1
  }

  function WithState(rec: Record, st: OpState, now: Time): Record {
    rec.(row := rec.row.(state := st, updatedAt := now))
  }

  ghost predicate AnchorFor(anchor: Record, s: Cell, now: Time) {
    s.holder.Some? && anchor.row == AnchorRow(s.holder.value, now)
  }

  class AdoptedEntries {
    var records: seq<Record>
    var files: map<Manifest, map<Client, Entry>>     // the snapshot directories

    ghost predicate Valid()
      reads this
    {
      Unique(records)
    }

    function SnapsOf(m: Manifest): map<Client, Entry>
      reads this
    {
      if m in files then files[m] else map[]
    }

    // The durable part of a cell is what the store holds for its manifest.
    ghost predicate Holds(m: Manifest, s: Cell)
      reads this
    {
      s.row == RowOf(Lookup(records, m)) && s.snaps == SnapsOf(m)
    }

    // The transaction was a run of the protocol from s.
    ghost predicate Realizes(q: Path, s: Cell, m: Manifest)
      reads this
    {
      IsPath(q) && Origin(q) == s && Holds(m, Tip(q))
    }

    // The store after the transaction agrees with the store before on every other manifest.
    twostate predicate OthersUntouched(m: Manifest)
      reads this
    {
      forall n :: n != m ==> Lookup(records, n) == Lookup(old(records), n) && SnapsOf(n) == old(SnapsOf(n))
    }

    constructor ()
      ensures Valid() && records == [] && files == map[]
    {
      records := [];
      files := map[];
    }

    method Find(m: Manifest) returns (r: Option<Record>, at: nat)
      requires Valid()
      ensures r == Lookup(records, m)
      ensures r.Some? ==> at < |records| && records[at] == r.value && r.value.name == m
    {
      at := 0;
      while at < |records|
        invariant at <= |records|
        invariant forall k :: 0 <= k < at ==> records[k].name != m
      {
        if records[at].name == m {
          LookupAt(records, at);
          return Some(records[at]), at;
        }
        at := at + 1;
      }
      LookupMisses(records, m);
      r := None;
    }

    method Kept(m: Manifest) returns (kept: seq<Record>)
      ensures kept == Without(records, m)
    {
      kept := [];
      for i := 0 to |records|
        invariant kept == Without(records[..i], m)
      {
        assert records[..i + 1] == records[..i] + [records[i]];
        WithoutAppend(records[..i], records[i], m);
        if records[i].name != m {
          kept := kept + [records[i]];
        }
      }
      assert records[..|records|] == records;
    }

    method Drop(m: Manifest)
      requires Valid()
      modifies this`records
      ensures Valid() && OthersUntouched(m) && Lookup(records, m).None?
    {
      var kept := Kept(m);
      WithoutKeepsUnique(records, m);
      forall n ensures Lookup(kept, n) == if n == m then None else Lookup(records, n) {
        WithoutDrops(records, m, n);
      }
      records := kept;
    }

    method Put(r: Record)
      requires Valid()
      modifies this`records
      ensures Valid() && OthersUntouched(r.name) && Lookup(records, r.name) == Some(r)
    {
      Drop(r.name);
      ghost var base := records;
      LookupMisses(records, r.name);
      forall n ensures Lookup(base + [r], n) == if n == r.name then Some(r) else Lookup(base, n) {
        LookupAppend(base, r, n);
        LookupMisses(base, n);
      }
      records := records + [r];
    }

    method Rewrite(at: nat, r: Record, w: Write) returns (out: Outcome)
      requires Valid() && at < |records| && records[at].name == r.name
      modifies this`records
      ensures Valid() && OthersUntouched(r.name) && out == (if w == Lands then Done else Failed)
      ensures Lookup(records, r.name) == if w == Fails then old(Lookup(records, r.name)) else Some(r)
    {
      if w != Fails {
        forall n ensures Lookup(records[at := r], n) == if n == r.name then Some(r) else Lookup(records, n) {
          LookupUpdate(records, at, r, n);
        }
        LookupUpdate(records, at, r, r.name);
        records := records[at := r];
      }
      out := if w == Lands then Done else Failed;
    }

    /** The secret-bearing snapshots go first.  Whatever could not be removed keeps its
        row: the caller goes on to the row only when none is left. */
    method RemoveSnapshots(m: Manifest, gone: set<Client>) returns (clean: bool)
      modifies this`files
      ensures OthersUntouched(m) && SnapsOf(m) == old(SnapsOf(m)) - gone
      ensures clean <==> SnapsOf(m) == map[]
    {
      var rest := SnapsOf(m) - gone;
      files := files[m := rest];
      clean := rest == map[];
    }

    // Snapshots first, then the row: the only way a row leaves the store.
    method Remove(m: Manifest, gone: set<Client>, w: Write) returns (out: Outcome)
      requires Valid()
      modifies this
      ensures Valid() && OthersUntouched(m) && SnapsOf(m) == old(SnapsOf(m)) - gone
      ensures out == Done <==> old(SnapsOf(m)).Keys <= gone && w == Lands
      ensures out == Done || out == Failed
      ensures Lookup(records, m) ==
                if old(SnapsOf(m)).Keys <= gone && w != Fails then None else old(Lookup(records, m))
    {
      var clean := RemoveSnapshots(m, gone);
      assert clean <==> old(SnapsOf(m)).Keys <= gone by {
        assert clean ==> forall c :: c in old(SnapsOf(m)) && c !in gone ==> c in SnapsOf(m);
      }
      if !clean {
        return Failed;
      }
      if w != Fails {
        Drop(m);
      }
      out := if w == Lands then Done else Failed;
    }

    // The prior record gives way to the anchor once none of its snapshots is left.
    method Replace(anchor: Record, gone: set<Client>, w: Write) returns (out: Outcome)
      requires Valid()
      modifies this
      ensures Valid() && OthersUntouched(anchor.name) && SnapsOf(anchor.name) == old(SnapsOf(anchor.name)) - gone
      ensures out == (if w == Lands && old(SnapsOf(anchor.name)).Keys <= gone then Done else Failed)
      ensures Lookup(records, anchor.name) ==
                if w != Fails && old(SnapsOf(anchor.name)).Keys <= gone then Some(anchor)
                else old(Lookup(records, anchor.name))
    {
      var clean := RemoveSnapshots(anchor.name, gone);
      assert clean <==> old(SnapsOf(anchor.name)).Keys <= gone by {
        assert clean ==> forall c :: c in old(SnapsOf(anchor.name)) && c !in gone ==> c in SnapsOf(anchor.name);
      }
      if !clean || w == Fails {
        return Failed;
      }
      Put(anchor);
      out := if w == Lands then Done else Failed;
    }

    /** First step of capture: a committed, unresolved or unproven prior row is refused;
        only a proven crash orphan is replaced by the new anchor, its snapshots first. */
    method CaptureAnchor(anchor: Record, o: Outside, gone: set<Client>, w: Write, now: Time, ghost s: Cell)
      returns (out: Outcome, ghost q: Path)
      requires Valid()
      modifies this
      ensures Valid() && OthersUntouched(anchor.name)
      ensures var p, snaps := old(Lookup(records, anchor.name)), old(SnapsOf(anchor.name));
              if p.Some? && !Replaceable(p.value, o, snaps) then
                out != Done && out != Failed && Lookup(records, anchor.name) == p && SnapsOf(anchor.name) == snaps
              else
                && SnapsOf(anchor.name) == (if p.Some? then snaps - gone else snaps)
                && (out == Done <==> w == Lands && (p.None? || snaps.Keys <= gone))
                && Lookup(records, anchor.name) ==
                     if w != Fails && (p.None? || snaps.Keys <= gone) then Some(anchor) else p
      ensures var p := old(Lookup(records, anchor.name));
              p.Some? && ProviderOff(p.value) ==>
                out != Done && Lookup(records, anchor.name) == p && SnapsOf(anchor.name) == old(SnapsOf(anchor.name))
      ensures old(Holds(anchor.name, s)) && At(s, AdoptStart) && Observes(o, s) && AnchorFor(anchor, s, now) ==>
                Realizes(q, s, anchor.name)
    {
      q := From(s);
      if s.holder.Some? { q := Quits(s); }
      var r, at := Find(anchor.name);
      ghost var matching := Holds(anchor.name, s) && At(s, AdoptStart) && Observes(o, s) && AnchorFor(anchor, s, now);
      if r.None? {
        if w == Fails {
          return Failed, q;
        }
        if matching { q := AnchorLeads(s, now); }
        Put(anchor);
        out := if w == Lands then Done else Failed;
        return;
      }
      out := Admit(r.value, o, SnapsOf(anchor.name));
      if out != Done {
        return;
      }
      if matching {
        var full, stopped := UpsertLeads(s, r.value, o, gone, now);
        q := if w != Fails && s.snaps.Keys <= gone then full else stopped;
        assert s.snaps.Keys <= gone ==> s.snaps - gone == map[];
      }
      out := Replace(anchor, gone, w);
    }

    // The run has pinned every planned client, as these pins say.
    ghost predicate PinnedAll(work: Work, pins: map<Client, Pin>) {
      work.pins == pins && pins.Keys == work.plan
    }

    /** Last step of capture: the anchor gets the record of what was pinned. */
    method FinalizeCapture(m: Manifest, pins: map<Client, Pin>, w: Write, now: Time, ghost s: Cell)
      returns (out: Outcome, ghost q: Path)
      requires Valid()
      modifies this`records
      ensures Valid() && OthersUntouched(m)
      ensures var p := old(Lookup(records, m));
              if p.None? || p.value.row.state != Adopting then out == NoRow && Lookup(records, m) == p
              else
                && out == (if w == Lands then Done else Failed)
                && Lookup(records, m) ==
                     if w == Fails then p
                     else Some(p.value.(row := p.value.row.(clients := pins, updatedAt := now)))
      ensures old(Holds(m, s)) && At(s, Capturing) && PinnedAll(s.holder.value, pins) ==> Realizes(q, s, m)
    {
      q := From(s);
      if s.holder.Some? { q := Quits(s); }
      var r, at := Find(m);
      if r.None? || r.value.row.state != Adopting {
        return NoRow, q;
      }
      if Holds(m, s) && At(s, Capturing) && PinnedAll(s.holder.value, pins) && w != Fails {
        q := FinalizeLeads(s, now);
      }
      out := Rewrite(at, r.value.(row := r.value.row.(clients := pins, updatedAt := now)), w);
    }

    /** Promotion reaches `adopted` from every other state and is idempotent. */
    method Promote(m: Manifest, w: Write, now: Time, ghost s: Cell) returns (out: Outcome, ghost q: Path)
      requires Valid()
      modifies this`records
      ensures Valid() && OthersUntouched(m)
      ensures var p := old(Lookup(records, m));
              if p.None? then out == NoRow && Lookup(records, m).None?
              else if p.value.projectService then out == ProjectServiceRefused && Lookup(records, m) == p
              else if p.value.row.state == Adopted then out == Unchanged && Lookup(records, m) == p
              else
                && out == (if w == Lands then Done else Failed)
                && Lookup(records, m) == if w == Fails then p else Some(WithState(p.value, Adopted, now))
      ensures old(Holds(m, s)) && At(s, Executing) ==> Realizes(q, s, m)
    {
      q := From(s);
      if s.holder.Some? { q := Quits(s); }
      var r, at := Find(m);
      if r.None? {
        return NoRow, q;
      }
      if r.value.projectService {
        return ProjectServiceRefused, q;
      }
      if r.value.row.state == Adopted {
        return Unchanged, q;
      }
      if Holds(m, s) && At(s, Executing) && w != Fails { q := PromoteLeads(s, now); }
      out := Rewrite(at, WithState(r.value, Adopted, now), w);
    }

    /** De-adopt takes over an adopted row, or an adopting one the classifier keeps; an
        adopting row with full crash evidence stays with the collector. */
    method MarkDeAdopting(m: Manifest, o: Outside, w: Write, now: Time, ghost s: Cell)
      returns (out: Outcome, ghost q: Path)
      requires Valid()
      modifies this`records
      ensures Valid() && OthersUntouched(m)
      ensures var p := old(Lookup(records, m));
              if p.None? then out == NoRow && Lookup(records, m).None?
              else if p.value.row.state == DeAdopting then out == Unchanged && Lookup(records, m) == p
              else if p.value.row.state == Adopted && p.value.projectService then
                out == ProjectServiceRefused && Lookup(records, m) == p
              else if p.value.row.state == Adopting && CrashEvidence(p.value, o) then
                out == StateRefused && Lookup(records, m) == p
              else
                && out == (if w == Lands then Done else Failed)
                && Lookup(records, m) == if w == Fails then p else Some(WithState(p.value, DeAdopting, now))
      ensures var p := old(Lookup(records, m));
              p.Some? && p.value.row.state == Adopting && ProviderOff(p.value) && w == Lands ==> out == Done
      ensures old(Holds(m, s)) && At(s, DeAdoptStart) && Observes(o, s) ==> Realizes(q, s, m)
      ensures old(Holds(m, s)) && At(s, DeAdoptStart) && Observes(o, s) && out == StateRefused ==> !Committed(s)
    {
      q := From(s);
      if s.holder.Some? { q := Quits(s); }
      var r, at := Find(m);
      if r.None? {
        return NoRow, q;
      }
      match r.value.row.state {
        case DeAdopting => return Unchanged, q;
        case Adopted =>
          if r.value.projectService {
            return ProjectServiceRefused, q;
          }
        case Adopting =>
          var verdict := Classify(r.value, o);
          if verdict == CrashReap {
            if Holds(m, s) && Observes(o, s) { CrashEvidenceExcludesCommit(s, r.value, o); }
            return StateRefused, q;
          }
      }
      if Holds(m, s) && At(s, DeAdoptStart) && w != Fails { q := MarkLeads(s, now); }
      out := Rewrite(at, WithState(r.value, DeAdopting, now), w);
    }

    // A collector, a close or a forget that has come to its removal.
    ghost predicate DropsRow(s: Cell) {
      At(s, Closing) || At(s, Forgetting) || (At(s, Reaping) && s.holder.value.lane == GcLane)
    }

    /** The identity gate of every collected, closed or forgotten row: one that changed
        state or timestamp since it was selected is left alone with its snapshots. */
    method Reap(m: Manifest, expected: OpState, updatedAt: Time, gone: set<Client>, w: Write, ghost s: Cell)
      returns (out: Outcome, ghost q: Path)
      requires Valid()
      modifies this
      ensures Valid() && OthersUntouched(m)
      ensures var p, snaps := old(Lookup(records, m)), old(SnapsOf(m));
              if p.None? || p.value.row.state != expected || p.value.row.updatedAt != updatedAt then
                out == Unchanged && Lookup(records, m) == p && SnapsOf(m) == snaps
              else if p.value.projectService then
                out == ProjectServiceRefused && Lookup(records, m) == p && SnapsOf(m) == snaps
              else
                && SnapsOf(m) == snaps - gone
                && out == (if snaps.Keys <= gone && w == Lands then Done else Failed)
                && Lookup(records, m) == if snaps.Keys <= gone && w != Fails then None else p
      ensures old(Holds(m, s)) && DropsRow(s) ==> Realizes(q, s, m)
    {
      q := From(s);
      if s.holder.Some? { q := Quits(s); }
      var r, at := Find(m);
      if r.None? || r.value.row.state != expected || r.value.row.updatedAt != updatedAt {
        return Unchanged, q;
      }
      if r.value.projectService {
        return ProjectServiceRefused, q;
      }
      if Holds(m, s) && s.holder.Some? && Removing(s.holder.value.stage) {
        var full, stopped := RemovalLeads(s, gone, 0);
        q := if s.snaps.Keys <= gone && w != Fails then full else stopped;
      }
      out := Remove(m, gone, w);
    }

    /** Failure cleanup of an adopt run: the same order, whatever the row's state. */
    method Abort(m: Manifest, gone: set<Client>, w: Write, ghost s: Cell) returns (out: Outcome, ghost q: Path)
      requires Valid()
      modifies this
      ensures Valid() && OthersUntouched(m)
      ensures var p, snaps := old(Lookup(records, m)), old(SnapsOf(m));
              if p.Some? && p.value.projectService then
                out == ProjectServiceRefused && Lookup(records, m) == p && SnapsOf(m) == snaps
              else
                && SnapsOf(m) == snaps - gone
                && out == (if snaps.Keys <= gone && w == Lands then Done else Failed)
                && Lookup(records, m) == if snaps.Keys <= gone && w != Fails then None else p
      ensures old(Holds(m, s)) && At(s, Aborting) ==> Realizes(q, s, m)
    {
      q := From(s);
      if s.holder.Some? { q := Quits(s); }
      var r, at := Find(m);
      if r.Some? && r.value.projectService {
        return ProjectServiceRefused, q;
      }
      if Holds(m, s) && At(s, Aborting) {
        var full, stopped := RemovalLeads(s, gone, 0);
        q := if s.snaps.Keys <= gone && w != Fails then full else stopped;
      }
      out := Remove(m, gone, w);
    }

    /** One verified teardown step of a provider: strictly the next phase, never a skip
        and never a step back. */
    method AdvanceTeardown(m: Manifest, expected: TeardownPhase, next: TeardownPhase, w: Write, now: Time,
                           ghost s: Cell)
      returns (out: Outcome, ghost q: Path)
      requires Valid()
      modifies this`records
      ensures Valid() && OthersUntouched(m)
      ensures var p := old(Lookup(records, m));
              if !CanAdvance(p, expected, next) then out != Done && out != Failed && Lookup(records, m) == p
              else
                && out == (if w == Lands then Done else Failed)
                && Lookup(records, m) ==
                     if w == Fails then p
                     else Some(WithState(p.value, DeAdopting, now).(
                                 provider := Some(p.value.provider.value.(phase := next))))
      ensures old(Holds(m, s)) && At(s, Restoring) ==> Realizes(q, s, m)
    {
      q := From(s);
      if s.holder.Some? { q := Quits(s); }
      if !((expected == NotStarted && next == StopSettled) || (expected == StopSettled && next == ManagedRemoved)
           || (expected == ManagedRemoved && next == RestoreApplied)) {
        return StateRefused, q;
      }
      var r, at := Find(m);
      if r.None? {
        return NoRow, q;
      }
      if r.value.row.state != DeAdopting || r.value.provider.None? {
        return StateRefused, q;
      }
      if r.value.provider.value.phase != expected {
        return StateRefused, q;
      }
      if r.value.projectService {
        return ProjectServiceRefused, q;
      }
      if Holds(m, s) && At(s, Restoring) && w != Fails { q := TouchLeads(s, now); }
      var advanced := Some(r.value.provider.value.(phase := next));
      out := Rewrite(at, WithState(r.value, DeAdopting, now).(provider := advanced), w);
    }
  }
}
