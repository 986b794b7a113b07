/**
 Adopt provenance as a concurrent protocol: adopt runs, garbage-collection passes,
 de-adopt runs, operator forgets and every other holder of the manifest lease, on any
 number of manifests, with writers that take no lease and crashes between any two
 durable steps.

 Every durable thing belongs to one manifest, so the world is a map of cells.  The
 per-manifest lease is the holder of a cell; the working memory of the run that
 holds it is stored with it.  What a collector remembers from its first phase is an
 arbitrary parameter here: nothing below depends on it being up to date.
 */
module AdoptProtocol {
  import opened Wrappers

  type Manifest = nat
  type Client = nat
  type Time = nat

  // The entry of a client config for this manifest.
  datatype Entry = Absent | Native(value: nat) | Hub(port: nat)

  datatype OpState = Adopting | Adopted | DeAdopting

  // What a finished capture recorded about one client.
  datatype Pin = Pinned(entry: Entry) | Unpinned

  datatype Row = Row(state: OpState, updatedAt: Time, port: nat, adoptClients: set<Client>, clients: map<Client, Pin>)

  datatype Stage =
    | AdoptStart | GcStart | DirStart | DeAdoptStart | ForgetStart | OtherHolder   // lease just taken
    | Classifying | Guarding | Proving | Reaping           // the two reap lanes
    | Capturing | Executing | Aborting                     // the adopt transaction
    | Restoring | Closing                                  // de-adopt
    | DirReaping                                           // collector, third phase
    | Forgetting                                           // the operator's forget

  datatype Lane = GcLane | UpsertLane

  // What a reap lane has read of its row and its clients.
  datatype Reading = Reading(
    row: Row,
    cleared: set<Client>,                // clients seen without the hub binding
    seen: map<Client, Entry>,            // entries read while proving
    dirty: set<Client>)                  // clients written without the lease since they were read

  // The memory of the run that holds the lease.
  datatype Work = Work(
    stage: Stage,
    lane: Lane,
    port: nat, plan: set<Client>,        // adopt: the plan
    expected: Time, cutoff: Time,        // collector: what its first phase saw
    read: Reading,
    pins: map<Client, Pin>)              // capture: what has been pinned so far

  // History of the current row.
  datatype Marks = Marks(
    installed: bool,                     // its run has got as far as the manifest
    forgot: bool)                        // a forget has removed one of its snapshots

  datatype Cell = Cell(
    row: Option<Row>,
    snaps: map<Client, Entry>,           // secret-bearing snapshot files
    manifest: bool,
    live: map<Client, Entry>,
    marks: Marks,
    holder: Option<Work>)

  const NO_ROW := Row(Adopting, 0, 0, {}, map[])
  const UNREAD := Reading(NO_ROW, {}, map[], {})
  const BLANK := Work(AdoptStart, GcLane, 0, {}, 0, 0, UNREAD, map[])
  const CLEAN := Marks(false, false)
  const EMPTY := Cell(None, map[], false, map[], CLEAN, None)

  function Live(s: Cell, c: Client): Entry {
    if c in s.live then s.live[c] else Absent
  }

  // What the operator reviewed before confirming a forget.
  datatype Review = Unconfirmed | SawNone | SawRow(state: OpState, updatedAt: Time)

  // What a run takes the lease for; the last stands for install, manifest edits and attach.
  datatype Purpose =
    | ForAdopt(port: nat, plan: set<Client>)
    | ForGc(expected: Time, cutoff: Time)
    | ForDir
    | ForDeAdopt
    | ForForget
    | ForOther

  datatype Event =
    | Take(purpose: Purpose)
    // what the holder does first
    | Begin                                   // capture reads the prior row
    | Reread                                  // the collector re-reads its candidate
    | CheckDir
    | Mark(evident: bool)
    | Confirm(review: Review)
    // the reap lanes and every removal
    | ClassifyClient(c: Client, readable: bool)
    | CheckManifest(statOk: bool)
    | RecheckManifest(statOk: bool)
    | ProveClient(c: Client, readable: bool)
    | StartReap
    | RemoveSnap(c: Client)
    | FinishRemove
    // capture, install, de-adopt
    | PinClient(c: Client)
    | Finalize
    | CreateManifest
    | DeleteManifest
    | InstallClient(c: Client)
    | RevertClient(c: Client, e: Entry)
    | Touch                                   // a progress record, which renews the timestamp
    | Promote
    | StartAbort
    | StartClose
    // other holders of the lease
    | PublishManifest(present: bool)
    | WriteClient(c: Client, e: Entry)
    // anyone, at any time
    | Release
    | EditOutside(c: Client, e: Entry)
    | DropManifestOutside

  datatype Kind = Opens | Removes | Runs | Elsewhere

  function KindOf(e: Event): Kind {
    match e
    case Take(_) | Begin | Reread | CheckDir | Mark(_) | Confirm(_) => Opens
    case ClassifyClient(_, _) | CheckManifest(_) | RecheckManifest(_) | ProveClient(_, _) => Removes
    case StartReap | RemoveSnap(_) | FinishRemove => Removes
    case PinClient(_) | Finalize | CreateManifest | DeleteManifest | InstallClient(_) | RevertClient(_, _) => Runs
    case Touch | Promote | StartAbort | StartClose => Runs
    case PublishManifest(_) | WriteClient(_, _) | Release | EditOutside(_, _) | DropManifestOutside => Elsewhere
  }

  predicate Opening(e: Event) { KindOf(e) == Opens }
  predicate Removal(e: Event) { KindOf(e) == Removes }
  predicate Running(e: Event) { KindOf(e) == Runs }

  // ---- a committed row ----

  predicate Bound(s: Cell, row: Row, c: Client) {
    Live(s, c) == Hub(row.port)
  }

  // Install reached the hub, or the run got past adopting: never to be reaped.
  ghost predicate Committed(s: Cell) {
    s.row.Some? &&
    (s.row.value.state != Adopting || s.manifest ||
     exists c :: c in s.row.value.adoptClients && Bound(s, s.row.value, c))
  }

  // ---- the steps ----

  function Goto(s: Cell, w: Work): Cell { s.(holder := Some(w)) }
  function Free(s: Cell): Cell { s.(holder := None) }

  function Anchor(s: Cell, w: Work, now: Time): Cell {
    s.(row := Some(Row(Adopting, now, w.port, w.plan, map[])), marks := CLEAN,
       holder := Some(BLANK.(stage := Capturing, port := w.port, plan := w.plan)))
  }

  function Fresh(p: Purpose): Work {
    match p
    case ForAdopt(port, plan) => BLANK.(stage := AdoptStart, port := port, plan := plan)
    case ForGc(expected, cutoff) => BLANK.(stage := GcStart, expected := expected, cutoff := cutoff)
    case ForDir => BLANK.(stage := DirStart)
    case ForDeAdopt => BLANK.(stage := DeAdoptStart)
    case ForForget => BLANK.(stage := ForgetStart)
    case ForOther => BLANK.(stage := OtherHolder)
  }

  function DoBegin(s: Cell, w: Work, now: Time): Cell {
    if s.row.None? then Anchor(s, w, now)
    else if s.row.value.state != Adopting then Free(s)
    else Goto(s, w.(stage := Classifying, lane := UpsertLane, read := Reading(s.row.value, {}, map[], {})))
  }

  function DoReread(s: Cell, w: Work): Cell {
    if s.row.Some? && s.row.value.state == Adopting && s.row.value.updatedAt == w.expected
      && s.row.value.updatedAt < w.cutoff then
      Goto(s, w.(stage := Classifying, lane := GcLane, read := Reading(s.row.value, {}, map[], {})))
    else Free(s)
  }

  // An unreadable client or a live binding keeps the row.
  function DoClassify(s: Cell, w: Work, c: Client, readable: bool): Cell {
    if !readable || Bound(s, w.read.row, c) then Free(s)
    else Goto(s, w.(read := w.read.(cleared := w.read.cleared + {c}, dirty := w.read.dirty - {c})))
  }

  function DoCheckManifest(s: Cell, w: Work, statOk: bool): Cell {
    if !statOk || s.manifest then Free(s)
    else Goto(s, w.(stage := if w.lane.GcLane? then Guarding else Proving))
  }

  function DoRecheck(s: Cell, w: Work, statOk: bool): Cell {
    if !statOk || s.manifest then Free(s) else Goto(s, w.(stage := Proving))
  }

  // A pinned client passes when its intact snapshot equals the live entry, any
  // other client when the live entry is not the hub binding.
  predicate Proven(s: Cell, row: Row, c: Client) {
    c in row.clients && !Bound(s, row, c) &&
    match row.clients[c]
    case Pinned(e) => c in s.snaps && s.snaps[c] == e && Live(s, c) == e
    case Unpinned => true
  }

  function DoProve(s: Cell, w: Work, c: Client, readable: bool): Cell {
    if !readable || !Proven(s, w.read.row, c) then Free(s)
    else Goto(s, w.(read := w.read.(seen := w.read.seen[c := Live(s, c)], dirty := w.read.dirty - {c})))
  }

  predicate Removing(g: Stage) {
    match g
    case Reaping | Aborting | Closing | DirReaping | Forgetting => true
    case _ => false
  }

  function DoRemove(s: Cell, w: Work, c: Client): Cell {
    s.(snaps := s.snaps - {c}, marks := s.marks.(forgot := s.marks.forgot || w.stage == Forgetting))
  }

  function DoFinish(s: Cell, w: Work, now: Time): Cell {
    if w.stage == Reaping && w.lane == UpsertLane then Anchor(s, w, now)
    else s.(row := None, marks := CLEAN, holder := None)
  }

  function DoPin(s: Cell, w: Work, c: Client): Cell {
    if Live(s, c) == Absent then Goto(s, w.(pins := w.pins[c := Unpinned]))
    else s.(snaps := s.snaps[c := Live(s, c)], holder := Some(w.(pins := w.pins[c := Pinned(Live(s, c))])))
  }

  function DoFinalize(s: Cell, w: Work, now: Time): Cell
    requires s.row.Some?
  {
    s.(row := Some(s.row.value.(clients := w.pins, updatedAt := now)), holder := Some(w.(stage := Executing)))
  }

  function SetLive(s: Cell, c: Client, e: Entry): Cell {
    s.(live := s.live[c := e])
  }

  function SetState(s: Cell, st: OpState, now: Time): Cell
    requires s.row.Some?
  {
    s.(row := Some(s.row.value.(state := st, updatedAt := now)))
  }

  // De-adopt takes an adopted row, or an adopting one the classifier cannot call a crash.
  ghost function DoMark(s: Cell, w: Work, evident: bool, now: Time): Cell {
    if s.row.None? then Free(s)
    else if s.row.value.state == DeAdopting then Goto(s, w.(stage := Restoring))
    else if s.row.value.state == Adopting && evident && !Committed(s) then Free(s)
    else Goto(SetState(s, DeAdopting, now), w.(stage := Restoring))
  }

  // A forget takes a row in any state, but only the one that was reviewed.
  function DoConfirm(s: Cell, w: Work, review: Review): Cell {
    match s.row
    case None => if review.SawRow? then Free(s) else Goto(s, w.(stage := DirReaping))
    case Some(row) =>
      if review == Unconfirmed || review == SawRow(row.state, row.updatedAt) then Goto(s, w.(stage := Forgetting))
      else Free(s)
  }

  // A write without the lease, of a client whose entry the lease holder may have read.
  function DoEdit(s: Cell, c: Client, e: Entry): Cell {
    if s.holder.None? then SetLive(s, c, e)
    else
      var w := s.holder.value;
      Goto(SetLive(s, c, e), w.(read := w.read.(dirty := w.read.dirty + {c})))
  }

  predicate At(s: Cell, g: Stage) {
    s.holder.Some? && s.holder.value.stage == g
  }

  ghost predicate CanOpen(s: Cell, e: Event) {
    match e
    case Begin => At(s, AdoptStart)
    case Reread => At(s, GcStart)
    case CheckDir => At(s, DirStart)
    case Mark(_) => At(s, DeAdoptStart)
    case Confirm(_) => At(s, ForgetStart)
    case Take(_) => s.holder.None?
    case _ => false
  }

  ghost predicate CanRemove(s: Cell, e: Event) {
    match e
    case ClassifyClient(c, _) => At(s, Classifying) && c in s.holder.value.read.row.adoptClients
    case CheckManifest(_) => At(s, Classifying) && s.holder.value.read.row.adoptClients <= s.holder.value.read.cleared
    case RecheckManifest(_) => At(s, Guarding)
    case ProveClient(c, _) => At(s, Proving) && c in s.holder.value.read.row.clients
    case StartReap => At(s, Proving) && s.holder.value.read.row.clients.Keys <= s.holder.value.read.seen.Keys
    case RemoveSnap(c) => s.holder.Some? && Removing(s.holder.value.stage) && c in s.snaps
    case FinishRemove => s.holder.Some? && Removing(s.holder.value.stage) && s.snaps == map[]
    case _ => false
  }

  ghost predicate CanRun(s: Cell, e: Event) {
    match e
    case PinClient(c) => At(s, Capturing) && c in s.holder.value.plan && c !in s.holder.value.pins
    case Finalize => At(s, Capturing) && s.holder.value.pins.Keys == s.holder.value.plan && s.row.Some?
    case CreateManifest => At(s, Executing)
    case DeleteManifest => At(s, Executing) || At(s, Restoring)
    case InstallClient(c) => At(s, Executing) && s.row.Some? && c in s.row.value.adoptClients && s.manifest
    case RevertClient(_, _) => At(s, Executing) || At(s, Restoring)
    case Touch => (At(s, Executing) || At(s, Restoring)) && s.row.Some?
    case Promote => At(s, Executing) && s.row.Some?
    case StartAbort => At(s, Capturing) || At(s, Executing)
    case StartClose => At(s, Restoring)
    case _ => false
  }

  ghost predicate CanOther(s: Cell, e: Event) {
    match e
    case PublishManifest(_) | WriteClient(_, _) => At(s, OtherHolder)
    case Release => s.holder.Some?
    case EditOutside(_, _) | DropManifestOutside => true
    case _ => false
  }

  datatype Gate = Open | Shut

  ghost function GateOf(s: Cell, e: Event): Gate {
    if Opening(e) then if CanOpen(s, e) then Open else Shut
    else if Removal(e) then if CanRemove(s, e) then Open else Shut
    else if Running(e) then if CanRun(s, e) then Open else Shut
    else if CanOther(s, e) then Open else Shut
  }

  ghost predicate Enabled(s: Cell, e: Event) {
    GateOf(s, e) == Open
  }

  ghost function OpenStep(s: Cell, e: Event, now: Time): Cell
    requires CanOpen(s, e)
  {
    match e
    case Take(purpose) => Goto(s, Fresh(purpose))
    case Begin => DoBegin(s, s.holder.value, now)
    case Reread => DoReread(s, s.holder.value)
    case CheckDir => if s.row.Some? then Free(s) else Goto(s, s.holder.value.(stage := DirReaping))
    case Mark(evident) => DoMark(s, s.holder.value, evident, now)
    case Confirm(review) => DoConfirm(s, s.holder.value, review)
  }

  ghost function RemoveStep(s: Cell, e: Event, now: Time): Cell
    requires CanRemove(s, e)
  {
    match e
    case ClassifyClient(c, readable) => DoClassify(s, s.holder.value, c, readable)
    case CheckManifest(statOk) => DoCheckManifest(s, s.holder.value, statOk)
    case RecheckManifest(statOk) => DoRecheck(s, s.holder.value, statOk)
    case ProveClient(c, readable) => DoProve(s, s.holder.value, c, readable)
    case StartReap => Goto(s, s.holder.value.(stage := Reaping))
    case RemoveSnap(c) => DoRemove(s, s.holder.value, c)
    case FinishRemove => DoFinish(s, s.holder.value, now)
  }

  ghost function RunStep(s: Cell, e: Event, now: Time): Cell
    requires CanRun(s, e)
  {
    match e
    case PinClient(c) => DoPin(s, s.holder.value, c)
    case Finalize => DoFinalize(s, s.holder.value, now)
    case CreateManifest => s.(manifest := true, marks := s.marks.(installed := true))
    case DeleteManifest => s.(manifest := false)
    case InstallClient(c) => SetLive(s, c, Hub(s.row.value.port)).(marks := s.marks.(installed := true))
    case RevertClient(c, e') => SetLive(s, c, e')
    case Touch => SetState(s, s.row.value.state, now)
    case Promote => Free(SetState(s, Adopted, now))
    case StartAbort => Goto(s, s.holder.value.(stage := Aborting))
    case StartClose => Goto(s, s.holder.value.(stage := Closing))
  }

  ghost function OtherStep(s: Cell, e: Event): Cell
    requires CanOther(s, e)
  {
    match e
    case PublishManifest(present) => s.(manifest := present)
    case WriteClient(c, e') => SetLive(s, c, e')
    case Release => Free(s)
    case EditOutside(c, e') => DoEdit(s, c, e')
    case DropManifestOutside => s.(manifest := false)
  }

  ghost function Step(s: Cell, e: Event, now: Time): Cell
    requires Enabled(s, e)
  {
    if Opening(e) then OpenStep(s, e, now)
    else if Removal(e) then RemoveStep(s, e, now)
    else if Running(e) then RunStep(s, e, now)
    else OtherStep(s, e)
  }

  // ---- the invariant of one cell ----

  // A snapshot the reaper has verified still is what it verified.
  ghost predicate Verified(s: Cell, r: Reading, c: Client) {
    c in r.row.clients && c in r.seen &&
    (r.row.clients[c].Pinned? ==>
       && r.seen[c] == r.row.clients[c].entry
       && (c in s.snaps ==> s.snaps[c] == r.seen[c])
       && (c !in r.dirty ==> Live(s, c) == r.seen[c]))
  }

  ghost predicate ReapOk(s: Cell, g: Stage, r: Reading) {
    && s.row == Some(r.row) && r.row.state == Adopting
    && (forall c :: c in r.cleared && c !in r.dirty ==> !Bound(s, r.row, c))
    && (if g == Classifying then r.seen == map[] else !s.manifest && r.row.adoptClients <= r.cleared)
    && (forall c :: c in r.seen ==> Verified(s, r, c))
    && (g == Reaping ==> r.row.clients.Keys <= r.seen.Keys)
  }

  // Every entry the row pinned can be restored.
  ghost predicate Restorable(s: Cell, row: Row) {
    forall c :: c in row.clients && row.clients[c].Pinned? ==> c in s.snaps && s.snaps[c] == row.clients[c].entry
  }

  ghost predicate Finished(s: Cell, row: Row) {
    && row.clients.Keys == row.adoptClients
    && forall c :: c in s.snaps ==> c in row.clients && row.clients[c] == Pinned(s.snaps[c])
  }

  // Either a bare anchor of a run that never reached its manifest, or a finished
  // capture whose record explains every snapshot on disk.
  ghost predicate RowOk(s: Cell, row: Row) {
    && ((row.state != Adopted && row.clients == map[] && !s.marks.installed) || Finished(s, row))
    && (row.state == Adopted ==> (Restorable(s, row) <==> !s.marks.forgot))
  }

  ghost predicate CaptureOk(s: Cell, w: Work) {
    && s.row.Some? && s.row.value.state == Adopting && s.row.value.clients == map[] && s.marks == CLEAN
    && s.row.value.adoptClients == w.plan && w.pins.Keys <= w.plan
    && (forall c :: c in s.snaps ==> c in w.pins && w.pins[c] == Pinned(s.snaps[c]))
    && (forall c :: c in w.pins && w.pins[c].Pinned? ==> c in s.snaps)
  }

  ghost predicate WorkOk(s: Cell, w: Work) {
    match w.stage
    case Classifying | Guarding | Proving | Reaping => ReapOk(s, w.stage, w.read)
    case Capturing => CaptureOk(s, w)
    case Executing =>
      s.row.Some? && s.row.value.state == Adopting && Finished(s, s.row.value) && Restorable(s, s.row.value)
        && !s.marks.forgot
    case Aborting => s.row.Some? && s.row.value.state == Adopting
    case Restoring | Closing => s.row.Some? && s.row.value.state == DeAdopting
    case Forgetting => s.row.Some?
    case DirReaping => s.row.None?
    case _ => true
  }

  ghost predicate CellOk(s: Cell) {
    && (s.row.None? ==> s.snaps == map[] && s.marks == CLEAN)
    && (s.row.Some? ==> RowOk(s, s.row.value))
    && (s.holder.Some? ==> WorkOk(s, s.holder.value))
  }

  // The manifest, the client configs and the holder are no part of a row's own invariant.
  lemma HolderKeepsCell(s: Cell, t: Cell)
    requires CellOk(s) && t == s.(manifest := t.manifest, live := t.live, holder := t.holder)
    requires t.holder.Some? ==> WorkOk(t, t.holder.value)
    ensures CellOk(t)
  {
  }

  lemma BeginKeepsCell(s: Cell, now: Time)
    requires CellOk(s) && At(s, AdoptStart)
    ensures CellOk(DoBegin(s, s.holder.value, now))
  {
    if s.row.Some? { HolderKeepsCell(s, DoBegin(s, s.holder.value, now)); }
  }

  lemma RereadKeepsCell(s: Cell)
    requires CellOk(s) && At(s, GcStart)
    ensures CellOk(DoReread(s, s.holder.value))
  {
    HolderKeepsCell(s, DoReread(s, s.holder.value));
  }

  lemma MarkKeepsCell(s: Cell, evident: bool, now: Time)
    requires CellOk(s) && At(s, DeAdoptStart)
    ensures CellOk(DoMark(s, s.holder.value, evident, now))
  {
  }

  lemma ConfirmKeepsCell(s: Cell, review: Review)
    requires CellOk(s) && At(s, ForgetStart)
    ensures CellOk(DoConfirm(s, s.holder.value, review))
  {
    HolderKeepsCell(s, DoConfirm(s, s.holder.value, review));
  }

  lemma OpenKeepsCell(s: Cell, e: Event, now: Time)
    requires CellOk(s) && CanOpen(s, e)
    ensures CellOk(OpenStep(s, e, now))
  {
    match e
    case Begin => BeginKeepsCell(s, now);
    case Reread => RereadKeepsCell(s);
    case Mark(evident) => MarkKeepsCell(s, evident, now);
    case Confirm(review) => ConfirmKeepsCell(s, review);
    case CheckDir => HolderKeepsCell(s, OpenStep(s, e, now));
    case Take(purpose) => HolderKeepsCell(s, Goto(s, Fresh(purpose)));
  }

  lemma ClassifyKeepsCell(s: Cell, c: Client, ok: bool)
    requires CellOk(s) && At(s, Classifying)
    ensures CellOk(DoClassify(s, s.holder.value, c, ok))
  {
    HolderKeepsCell(s, DoClassify(s, s.holder.value, c, ok));
  }

  lemma CheckKeepsCell(s: Cell, ok: bool)
    requires CellOk(s)
    requires At(s, Guarding)
             || (At(s, Classifying) && s.holder.value.read.row.adoptClients <= s.holder.value.read.cleared)
    ensures CellOk(DoCheckManifest(s, s.holder.value, ok)) && CellOk(DoRecheck(s, s.holder.value, ok))
  {
    HolderKeepsCell(s, DoCheckManifest(s, s.holder.value, ok));
    HolderKeepsCell(s, DoRecheck(s, s.holder.value, ok));
  }

  lemma ProveKeepsReap(s: Cell, r: Reading, c: Client)
    requires ReapOk(s, Proving, r) && Proven(s, r.row, c)
    ensures ReapOk(s, Proving, r.(seen := r.seen[c := Live(s, c)], dirty := r.dirty - {c}))
  {
    var r' := r.(seen := r.seen[c := Live(s, c)], dirty := r.dirty - {c});
    forall d | d in r'.seen ensures Verified(s, r', d) {
      assert d != c ==> Verified(s, r, d);
    }
  }

  lemma ProveKeepsCell(s: Cell, c: Client, ok: bool)
    requires CellOk(s) && At(s, Proving)
    ensures CellOk(DoProve(s, s.holder.value, c, ok))
  {
    var w := s.holder.value;
    if ok && Proven(s, w.read.row, c) { ProveKeepsReap(s, w.read, c); }
    HolderKeepsCell(s, DoProve(s, w, c, ok));
  }

  lemma RemoveKeepsRow(s: Cell, w: Work, c: Client)
    requires s.row.Some? && RowOk(s, s.row.value) && c in s.snaps
    requires s.row.value.state == Adopted ==> w.stage == Forgetting
    ensures RowOk(DoRemove(s, w, c), s.row.value)
  {
    assert Finished(s, s.row.value) ==> s.row.value.clients[c].Pinned?;
  }

  lemma RemoveKeepsReap(s: Cell, w: Work, c: Client)
    requires ReapOk(s, Reaping, w.read)
    ensures ReapOk(DoRemove(s, w, c), Reaping, w.read)
  {
    var t := DoRemove(s, w, c);
    forall d | d in w.read.seen ensures Verified(t, w.read, d) {
      assert Verified(s, w.read, d);
    }
    forall d | d in w.read.cleared && d !in w.read.dirty ensures !Bound(t, w.read.row, d) {
      assert !Bound(s, w.read.row, d);
    }
  }

  lemma RemoveKeepsCell(s: Cell, c: Client)
    requires CellOk(s) && s.holder.Some? && Removing(s.holder.value.stage) && c in s.snaps
    ensures CellOk(DoRemove(s, s.holder.value, c))
  {
    var w := s.holder.value;
    RemoveKeepsRow(s, w, c);
    if w.stage == Reaping { RemoveKeepsReap(s, w, c); }
  }

  lemma FinishKeepsCell(s: Cell, now: Time)
    requires CellOk(s) && s.holder.Some? && s.snaps == map[]
    ensures CellOk(DoFinish(s, s.holder.value, now))
  {
  }

  lemma RemovalKeepsCell(s: Cell, e: Event, now: Time)
    requires CellOk(s) && CanRemove(s, e)
    ensures CellOk(RemoveStep(s, e, now))
  {
    match e
    case ClassifyClient(c, ok) => ClassifyKeepsCell(s, c, ok);
    case CheckManifest(ok) => CheckKeepsCell(s, ok);
    case RecheckManifest(ok) => CheckKeepsCell(s, ok);
    case ProveClient(c, ok) => ProveKeepsCell(s, c, ok);
    case StartReap => HolderKeepsCell(s, Goto(s, s.holder.value.(stage := Reaping)));
    case RemoveSnap(c) => RemoveKeepsCell(s, c);
    case FinishRemove => FinishKeepsCell(s, now);
  }

  lemma PinKeepsCell(s: Cell, c: Client)
    requires CellOk(s) && At(s, Capturing) && c in s.holder.value.plan && c !in s.holder.value.pins
    ensures CellOk(DoPin(s, s.holder.value, c))
  {
  }

  lemma FinalizeKeepsCell(s: Cell, now: Time)
    requires CellOk(s) && At(s, Capturing) && s.holder.value.pins.Keys == s.holder.value.plan
    ensures CellOk(DoFinalize(s, s.holder.value, now))
  {
  }

  lemma InstallKeepsCell(s: Cell, t: Cell)
    requires CellOk(s) && At(s, Executing)
    requires t == s.(manifest := t.manifest, live := t.live, marks := s.marks.(installed := true))
    ensures CellOk(t)
  {
  }

  lemma PromoteKeepsCell(s: Cell, now: Time)
    requires CellOk(s) && At(s, Executing)
    ensures CellOk(Free(SetState(s, Adopted, now)))
  {
  }

  lemma TouchKeepsCell(s: Cell, now: Time)
    requires CellOk(s) && (At(s, Executing) || At(s, Restoring))
    ensures CellOk(SetState(s, s.row.value.state, now))
  {
  }

  lemma RunningKeepsCell(s: Cell, e: Event, now: Time)
    requires CellOk(s) && CanRun(s, e)
    ensures CellOk(RunStep(s, e, now))
  {
    match e
    case PinClient(c) => PinKeepsCell(s, c);
    case Finalize => FinalizeKeepsCell(s, now);
    case Touch => TouchKeepsCell(s, now);
    case Promote => PromoteKeepsCell(s, now);
    case StartAbort => HolderKeepsCell(s, RunStep(s, e, now));
    case StartClose => HolderKeepsCell(s, RunStep(s, e, now));
    case CreateManifest => InstallKeepsCell(s, RunStep(s, e, now));
    case InstallClient(_) => InstallKeepsCell(s, RunStep(s, e, now));
    case DeleteManifest => HolderKeepsCell(s, RunStep(s, e, now));
    case RevertClient(_, _) => HolderKeepsCell(s, RunStep(s, e, now));
  }

  // A client written without the lease is marked dirty.
  lemma EditKeepsReap(s: Cell, g: Stage, r: Reading, c: Client, e: Entry)
    requires ReapOk(s, g, r)
    ensures ReapOk(SetLive(s, c, e), g, r.(dirty := r.dirty + {c}))
  {
    var t, r' := SetLive(s, c, e), r.(dirty := r.dirty + {c});
    forall d | d in r'.cleared && d !in r'.dirty ensures !Bound(t, r'.row, d) {
      assert !Bound(s, r.row, d);
    }
    forall d | d in r'.seen ensures Verified(t, r', d) {
      assert Verified(s, r, d);
    }
  }

  predicate InLane(g: Stage) {
    match g case Classifying | Guarding | Proving | Reaping => true case _ => false
  }

  lemma EditKeepsWork(s: Cell, w: Work, c: Client, e: Entry)
    requires WorkOk(s, w)
    ensures WorkOk(SetLive(s, c, e), w.(read := w.read.(dirty := w.read.dirty + {c})))
  {
    if InLane(w.stage) { EditKeepsReap(s, w.stage, w.read, c, e); }
  }

  lemma EditKeepsCell(s: Cell, c: Client, e: Entry)
    requires CellOk(s)
    ensures CellOk(DoEdit(s, c, e))
  {
    if s.holder.Some? { EditKeepsWork(s, s.holder.value, c, e); }
    HolderKeepsCell(s, DoEdit(s, c, e));
  }

  // The manifest only ever counts against reaping.
  lemma DropKeepsWork(s: Cell, w: Work)
    requires WorkOk(s, w)
    ensures WorkOk(s.(manifest := false), w)
  {
    var t := s.(manifest := false);
    if InLane(w.stage) {
      forall d | d in w.read.seen ensures Verified(t, w.read, d) {
        assert Verified(s, w.read, d);
      }
      forall d | d in w.read.cleared && d !in w.read.dirty ensures !Bound(t, w.read.row, d) {
        assert !Bound(s, w.read.row, d);
      }
    }
  }

  lemma OtherKeepsCell(s: Cell, e: Event)
    requires CellOk(s) && CanOther(s, e)
    ensures CellOk(OtherStep(s, e))
  {
    match e
    case EditOutside(c, e') => EditKeepsCell(s, c, e');
    case DropManifestOutside =>
      if s.holder.Some? { DropKeepsWork(s, s.holder.value); }
      HolderKeepsCell(s, s.(manifest := false));
    case Release => HolderKeepsCell(s, Free(s));
    case PublishManifest(present) => HolderKeepsCell(s, s.(manifest := present));
    case WriteClient(c, e') => HolderKeepsCell(s, SetLive(s, c, e'));
  }

  lemma StepKeepsCell(s: Cell, e: Event, now: Time)
    requires CellOk(s) && Enabled(s, e)
    ensures CellOk(Step(s, e, now))
  {
    if Opening(e) {
      OpenKeepsCell(s, e, now);
    } else if Removal(e) {
      RemovalKeepsCell(s, e, now);
    } else if Running(e) {
      RunningKeepsCell(s, e, now);
    } else {
      OtherKeepsCell(s, e);
    }
  }

  // ---- the world: any number of manifests, any interleaving ----

  datatype World = World(cells: map<Manifest, Cell>, now: Time)

  datatype Action = On(m: Manifest, e: Event) | Tick

  function CellAt(w: World, m: Manifest): Cell {
    if m in w.cells then w.cells[m] else EMPTY
  }

  ghost predicate Allowed(w: World, a: Action) {
    a.On? ==> Enabled(CellAt(w, a.m), a.e)
  }

  ghost function Next(w: World, a: Action): World
    requires Allowed(w, a)
  {
    match a
    case On(m, e) => w.(cells := w.cells[m := Step(CellAt(w, m), e, w.now)])
    case Tick => w.(now := w.now + 1)
  }

  datatype Trace = Start(w: World) | Then(prev: Trace, a: Action)

  // A fresh machine: nothing adopted, arbitrary manifests and client configs.
  ghost predicate Untouched(w: World) {
    forall m :: m in w.cells ==> w.cells[m] == EMPTY.(manifest := w.cells[m].manifest, live := w.cells[m].live)
  }

  ghost predicate IsRun(tr: Trace)
    decreases tr, 0
  {
    match tr
    case Start(w) => Untouched(w)
    case Then(prev, a) => IsRun(prev) && Allowed(End(prev), a)
  }

  ghost function End(tr: Trace): World
    requires IsRun(tr)
    decreases tr, 1
  {
    match tr
    case Start(w) => w
    case Then(prev, a) => Next(End(prev), a)
  }

  ghost function CellIn(tr: Trace, m: Manifest): Cell
    requires IsRun(tr)
  {
    CellAt(End(tr), m)
  }

  /** Every interleaving keeps the invariant of every cell. */
  lemma {:induction false} RunKeepsWorld(tr: Trace, m: Manifest)
    requires IsRun(tr)
    ensures CellOk(CellIn(tr, m))
  {
    if tr.Then? {
      RunKeepsWorld(tr.prev, m);
      if tr.a.On? && tr.a.m == m { StepKeepsCell(CellIn(tr.prev, m), tr.a.e, End(tr.prev).now); }
    }
  }

  // ---- what holds in every reachable world ----

  /** A secret-bearing snapshot always has a store row, at every instant. */
  lemma SnapshotHasRow(tr: Trace, m: Manifest)
    requires IsRun(tr) && CellIn(tr, m).snaps != map[]
    ensures CellIn(tr, m).row.Some?
  {
    RunKeepsWorld(tr, m);
  }

  /** An adopted row can restore every entry it pinned, unless a forget has begun to
      remove its snapshots. */
  lemma AdoptedIsRestorable(tr: Trace, m: Manifest)
    requires IsRun(tr) && CellIn(tr, m).row.Some? && CellIn(tr, m).row.value.state == Adopted
    ensures Restorable(CellIn(tr, m), CellIn(tr, m).row.value) <==> !CellIn(tr, m).marks.forgot
  {
    RunKeepsWorld(tr, m);
  }

  // The collector or capture's upsert is deleting: a snapshot, or the row itself.
  ghost predicate Reaps(s: Cell, e: Event) {
    At(s, Reaping) && (e.RemoveSnap? || e.FinishRemove?) && Enabled(s, e)
  }

  // A hub binding that a writer without the lease made after the reaper read the client.
  ghost predicate BoundLate(s: Cell, c: Client)
    requires s.row.Some? && s.holder.Some?
  {
    c in s.row.value.adoptClients && c in s.holder.value.read.dirty && Bound(s, s.row.value, c)
  }

  /** Neither the collector nor capture's upsert deletes anything of a committed row,
      whatever their first phase saw and however lease holders interleave; the one
      exception is a row whose only commitment is a binding that a writer without the
      lease made after the client was read. */
  lemma CommittedNeverReaped(tr: Trace, m: Manifest, e: Event)
    requires IsRun(tr) && Reaps(CellIn(tr, m), e)
    ensures CellIn(tr, m).row.Some?
    ensures Committed(CellIn(tr, m)) <==> exists c :: BoundLate(CellIn(tr, m), c)
  {
    RunKeepsWorld(tr, m);
    var s := CellIn(tr, m);
    var r := s.holder.value.read;
    assert ReapOk(s, Reaping, r);
    forall c | c in r.row.adoptClients && Bound(s, r.row, c) ensures BoundLate(s, c) {
      assert c in r.cleared;
    }
    if c :| BoundLate(s, c) { assert c in s.row.value.adoptClients && Bound(s, s.row.value, c); }
  }

  // A recorded snapshot is what the row pinned, equals the entry the reaper read, and
  // still equals the live entry unless a writer without the lease has changed that client
  // since; an unrecorded one belongs to a capture that never finished, so its run never
  // reached the manifest or Install.
  ghost predicate Redundant(s: Cell, c: Client)
    requires s.row.Some? && s.holder.Some? && c in s.snaps
  {
    var row, read := s.row.value, s.holder.value.read;
    if c in row.clients then
      && row.clients[c] == Pinned(s.snaps[c])
      && c in read.seen && read.seen[c] == s.snaps[c]
      && (c !in read.dirty ==> Live(s, c) == s.snaps[c])
    else
      row.clients == map[] && !s.marks.installed
  }

  lemma ReapedIsRedundant(s: Cell, c: Client)
    requires CellOk(s) && At(s, Reaping) && c in s.snaps
    ensures s.row.Some? && Redundant(s, c)
  {
    assert ReapOk(s, Reaping, s.holder.value.read);
    assert c in s.row.value.clients ==> Verified(s, s.holder.value.read, c);
  }

  /** Every snapshot they delete is redundant. */
  lemma DeletedSnapshotIsRedundant(tr: Trace, m: Manifest, c: Client)
    requires IsRun(tr) && Reaps(CellIn(tr, m), RemoveSnap(c))
    ensures CellIn(tr, m).row.Some? && c in CellIn(tr, m).snaps && Redundant(CellIn(tr, m), c)
  {
    RunKeepsWorld(tr, m);
    ReapedIsRedundant(CellIn(tr, m), c);
  }

  /** The collector's rowless-directory phase never has a snapshot to delete. */
  lemma DirectoryPhaseIsInert(tr: Trace, m: Manifest, c: Client)
    requires IsRun(tr) && At(CellIn(tr, m), DirReaping)
    ensures !Enabled(CellIn(tr, m), RemoveSnap(c))
  {
    RunKeepsWorld(tr, m);
  }

  function Rank(st: OpState): nat {
    match st case Adopting => 0 case Adopted => 1 case DeAdopting => 2
  }

  // The state never goes back; an adopted row is dropped, or loses a snapshot, exactly
  // by a forget; while it stays adopted its record stays.
  ghost predicate Forward(s: Cell, e: Event, t: Cell)
    requires s.row.Some?
  {
    && (t.row.Some? ==> Rank(s.row.value.state) <= Rank(t.row.value.state))
    && (s.row.value.state == Adopted ==>
          && (t.row.None? <==> e.FinishRemove? && At(s, Forgetting))
          && (t.snaps != s.snaps <==> e.RemoveSnap? && At(s, Forgetting))
          && (t.row.Some? && t.row.value.state == Adopted ==> t.row == s.row))
  }

  lemma OpenIsForward(s: Cell, e: Event, now: Time)
    requires CellOk(s) && CanOpen(s, e) && s.row.Some?
    ensures Forward(s, e, OpenStep(s, e, now))
  {
    match e
    case Begin => assert Forward(s, e, DoBegin(s, s.holder.value, now));
    case Mark(ok) => assert Forward(s, e, DoMark(s, s.holder.value, ok, now));
    case Confirm(review) => assert Forward(s, e, DoConfirm(s, s.holder.value, review));
    case Reread => assert Forward(s, e, DoReread(s, s.holder.value));
    case CheckDir =>
    case Take(_) =>
  }

  lemma RemovalIsForward(s: Cell, e: Event, now: Time)
    requires CellOk(s) && CanRemove(s, e) && s.row.Some?
    ensures Forward(s, e, RemoveStep(s, e, now))
  {
    var w := s.holder.value;
    assert WorkOk(s, w);
    match e
    case ClassifyClient(c, ok) => assert Forward(s, e, DoClassify(s, w, c, ok));
    case CheckManifest(ok) => assert Forward(s, e, DoCheckManifest(s, w, ok));
    case RecheckManifest(ok) => assert Forward(s, e, DoRecheck(s, w, ok));
    case ProveClient(c, ok) => assert Forward(s, e, DoProve(s, w, c, ok));
    case StartReap =>
    case RemoveSnap(c) => assert c !in DoRemove(s, w, c).snaps;
    case FinishRemove => assert Forward(s, e, DoFinish(s, w, now));
  }

  lemma RunningIsForward(s: Cell, e: Event, now: Time)
    requires CellOk(s) && CanRun(s, e) && s.row.Some?
    ensures Forward(s, e, RunStep(s, e, now))
  {
    assert WorkOk(s, s.holder.value);
  }

  lemma StepIsForward(s: Cell, e: Event, now: Time)
    requires CellOk(s) && Enabled(s, e) && s.row.Some?
    ensures Forward(s, e, Step(s, e, now))
  {
    if Opening(e) {
      OpenIsForward(s, e, now);
    } else if Removal(e) {
      RemovalIsForward(s, e, now);
    } else if Running(e) {
      RunningIsForward(s, e, now);
    }
  }

  /** The lifecycle of every row only moves forward, and only a forget takes an adopted
      row or one of its snapshots. */
  lemma LifecycleMonotone(tr: Trace, m: Manifest, e: Event)
    requires IsRun(tr) && Enabled(CellIn(tr, m), e) && CellIn(tr, m).row.Some?
    ensures Forward(CellIn(tr, m), e, CellAt(Next(End(tr), On(m, e)), m))
  {
    RunKeepsWorld(tr, m);
    StepIsForward(CellIn(tr, m), e, End(tr).now);
  }

  // ---- a forget takes what was reviewed ----

  // What the operator confirmed to the holder of m's lease, read off the run: the last
  // confirmation since the lease was taken.
  function Reviewed(tr: Trace, m: Manifest): Option<Review> {
    match tr
    case Start(_) => None
    case Then(prev, a) =>
      if a.On? && a.m == m && a.e.Take? then None
      else if a.On? && a.m == m && a.e.Confirm? then Some(a.e.review)
      else Reviewed(prev, m)
  }

  // The review demanded nothing, or named this row by state and time.
  predicate Names(review: Review, row: Row) {
    review == Unconfirmed || review == SawRow(row.state, row.updatedAt)
  }

  ghost predicate ForgetsReviewed(s: Cell, reviewed: Option<Review>) {
    At(s, Forgetting) ==> s.row.Some? && reviewed.Some? && Names(reviewed.value, s.row.value)
  }

  lemma OpenForgets(s: Cell, e: Event, now: Time, reviewed: Option<Review>)
    requires CanOpen(s, e) && ForgetsReviewed(s, reviewed)
    ensures ForgetsReviewed(OpenStep(s, e, now),
                            if e.Take? then None else if e.Confirm? then Some(e.review) else reviewed)
  {
    match e
    case Begin => assert !At(DoBegin(s, s.holder.value, now), Forgetting);
    case Reread => assert !At(DoReread(s, s.holder.value), Forgetting);
    case Mark(evident) => assert !At(DoMark(s, s.holder.value, evident, now), Forgetting);
    case Confirm(_) =>
    case CheckDir =>
    case Take(purpose) => assert !At(Goto(s, Fresh(purpose)), Forgetting);
  }

  lemma RemovalForgets(s: Cell, e: Event, now: Time, reviewed: Option<Review>)
    requires CanRemove(s, e) && ForgetsReviewed(s, reviewed)
    ensures ForgetsReviewed(RemoveStep(s, e, now), reviewed)
  {
  }

  lemma RunningForgets(s: Cell, e: Event, now: Time, reviewed: Option<Review>)
    requires CanRun(s, e) && ForgetsReviewed(s, reviewed)
    ensures ForgetsReviewed(RunStep(s, e, now), reviewed)
  {
  }

  lemma OtherForgets(s: Cell, e: Event, reviewed: Option<Review>)
    requires CanOther(s, e) && ForgetsReviewed(s, reviewed)
    ensures ForgetsReviewed(OtherStep(s, e), reviewed)
  {
  }

  lemma StepForgets(s: Cell, e: Event, now: Time, reviewed: Option<Review>)
    requires Enabled(s, e) && ForgetsReviewed(s, reviewed)
    ensures ForgetsReviewed(Step(s, e, now),
                            if e.Take? then None else if e.Confirm? then Some(e.review) else reviewed)
  {
    match KindOf(e)
    case Opens => OpenForgets(s, e, now, reviewed);
    case Removes => RemovalForgets(s, e, now, reviewed);
    case Runs => RunningForgets(s, e, now, reviewed);
    case Elsewhere => OtherForgets(s, e, reviewed);
  }

  /** Wherever a forget of a run is removing, its operator asked for no identity check or
      reviewed exactly the row that is there, by state and time. */
  lemma {:induction false} ForgetTakesReviewed(tr: Trace, m: Manifest)
    requires IsRun(tr)
    ensures ForgetsReviewed(CellIn(tr, m), Reviewed(tr, m))
  {
    if tr.Then? {
      ForgetTakesReviewed(tr.prev, m);
      if tr.a.On? && tr.a.m == m {
        StepForgets(CellIn(tr.prev, m), tr.a.e, End(tr.prev).now, Reviewed(tr.prev, m));
      }
    }
  }

  /** A confirmation leads to the removal of a row exactly when it names that row; any other one
      over a row, and a reviewed row that is gone, ends the forget with row and snapshots as
      they were. */
  lemma ConfirmExactly(tr: Trace, m: Manifest, review: Review)
    requires IsRun(tr) && Enabled(CellIn(tr, m), Confirm(review))
    ensures var s, t := CellIn(tr, m), CellIn(Then(tr, On(m, Confirm(review))), m);
            && t.row == s.row && t.snaps == s.snaps && t.manifest == s.manifest && t.live == s.live
            && (At(t, Forgetting) <==> s.row.Some? && Names(review, s.row.value))
            && (t.holder.None? <==> if s.row.Some? then !Names(review, s.row.value) else review.SawRow?)
  {
    var s := CellIn(tr, m);
    assert KindOf(Confirm(review)).Opens?;
    assert CellIn(Then(tr, On(m, Confirm(review))), m) == DoConfirm(s, s.holder.value, review);
  }

  // ---- runs of one cell ----

  datatype Path = From(s: Cell) | Go(prev: Path, e: Event, now: Time)

  ghost predicate IsPath(p: Path)
    decreases p, 0
  {
    p.Go? ==> IsPath(p.prev) && Enabled(Tip(p.prev), p.e)
  }

  ghost function Tip(p: Path): Cell
    requires IsPath(p)
    decreases p, 1
  {
    match p
    case From(s) => s
    case Go(prev, e, now) => Step(Tip(prev), e, now)
  }

  function Origin(p: Path): Cell {
    match p
    case From(s) => s
    case Go(prev, _, _) => Origin(prev)
  }

  // One collector pass after another, with one age limit, and nothing else.
  predicate Collecting(e: Event, cutoff: Time) {
    e.Reread? || Removal(e) || (e.Take? && e.purpose.ForGc? && e.purpose.cutoff == cutoff)
  }

  predicate OnlyCollects(p: Path, cutoff: Time) {
    p.Go? ==> OnlyCollects(p.prev, cutoff) && Collecting(p.e, cutoff)
  }

  // No operator repairs the row: no de-adopt and no forget.
  predicate Unrepaired(p: Path) {
    p.Go? ==> Unrepaired(p.prev) && p.e != Take(ForDeAdopt) && p.e != Take(ForForget)
  }

  // q goes on from p with collector steps.
  ghost predicate Extends(q: Path, p: Path, cutoff: Time) {
    && IsPath(q) && Origin(q) == Origin(p)
    && (OnlyCollects(p, cutoff) ==> OnlyCollects(q, cutoff)) && (Unrepaired(p) ==> Unrepaired(q))
  }

  lemma Proceed(q: Path, p: Path, e: Event, cutoff: Time, now: Time) returns (r: Path)
    requires Extends(q, p, cutoff) && Enabled(Tip(q), e) && Collecting(e, cutoff)
    ensures Extends(r, p, cutoff) && Tip(r) == Step(Tip(q), e, now)
  {
    r := Go(q, e, now);
  }

  lemma RemoveOne(q: Path, p: Path, e: Event, cutoff: Time, now: Time) returns (r: Path)
    requires Extends(q, p, cutoff) && CanRemove(Tip(q), e)
    ensures Extends(r, p, cutoff) && Tip(r) == RemoveStep(Tip(q), e, now)
  {
    assert Removal(e);
    r := Proceed(q, p, e, cutoff, now);
  }

  // t is s further on in the same stage of a lane, with more read.
  ghost predicate ReadsOn(t: Cell, s: Cell) {
    && s.holder.Some? && t.holder.Some? && t == Goto(s, t.holder.value)
    && t.holder.value == s.holder.value.(read := t.holder.value.read)
    && t.holder.value.read.row == s.holder.value.read.row
  }

  ghost predicate AllClear(s: Cell, whom: set<Client>) {
    s.holder.Some? && whom <= s.holder.value.read.row.adoptClients
    && forall c :: c in whom ==> !Bound(s, s.holder.value.read.row, c)
  }

  ghost predicate AllProven(s: Cell, whom: set<Client>) {
    s.holder.Some? && forall c :: c in whom ==> Proven(s, s.holder.value.read.row, c)
  }

  // Reading on changes nothing that is read.
  lemma StillTrue(t: Cell, s: Cell, whom: set<Client>)
    requires ReadsOn(t, s)
    ensures AllClear(s, whom) ==> AllClear(t, whom)
    ensures AllProven(s, whom) ==> AllProven(t, whom)
  {
    if AllProven(s, whom) {
      forall c | c in whom ensures Proven(t, t.holder.value.read.row, c) {
        assert Proven(s, s.holder.value.read.row, c);
      }
    }
    if AllClear(s, whom) {
      forall c | c in whom ensures !Bound(t, t.holder.value.read.row, c) {
        assert !Bound(s, s.holder.value.read.row, c);
      }
    }
  }

  lemma ReadsOnChain(u: Cell, t: Cell, s: Cell)
    requires ReadsOn(u, t) && ReadsOn(t, s)
    ensures ReadsOn(u, s)
  {
  }

  lemma ClassifyOne(p: Path, c: Client, cutoff: Time, now: Time) returns (q: Path)
    requires IsPath(p) && At(Tip(p), Classifying) && AllClear(Tip(p), {c})
    ensures Extends(q, p, cutoff) && ReadsOn(Tip(q), Tip(p))
    ensures Tip(q).holder.value.read.cleared == Tip(p).holder.value.read.cleared + {c}
  {
    q := RemoveOne(p, p, ClassifyClient(c, true), cutoff, now);
  }

  lemma {:induction false} ClassifyRest(p: Path, left: set<Client>, cutoff: Time, now: Time) returns (q: Path)
    requires IsPath(p) && At(Tip(p), Classifying) && AllClear(Tip(p), left)
    ensures Extends(q, p, cutoff) && ReadsOn(Tip(q), Tip(p))
    ensures Tip(q).holder.value.read.cleared == Tip(p).holder.value.read.cleared + left
    decreases left
  {
    q := p;
    if left != {} {
      var c :| c in left;
      q := ClassifyOne(p, c, cutoff, now);
      StillTrue(Tip(q), Tip(p), left - {c});
      q := ClassifyRest(q, left - {c}, cutoff, now);
    }
  }

  lemma ClassifyAll(p: Path, row: Row, cutoff: Time, now: Time) returns (q: Path)
    requires IsPath(p) && At(Tip(p), Classifying) && Tip(p).holder.value.read.row == row
    requires forall c :: c in row.adoptClients ==> !Bound(Tip(p), row, c)
    ensures Extends(q, p, cutoff) && ReadsOn(Tip(q), Tip(p)) && row.adoptClients <= Tip(q).holder.value.read.cleared
  {
    q := ClassifyRest(p, row.adoptClients, cutoff, now);
  }

  lemma ProveOne(p: Path, c: Client, cutoff: Time, now: Time) returns (q: Path)
    requires IsPath(p) && At(Tip(p), Proving) && AllProven(Tip(p), {c})
    ensures Extends(q, p, cutoff) && ReadsOn(Tip(q), Tip(p))
    ensures Tip(q).holder.value.read.seen.Keys == Tip(p).holder.value.read.seen.Keys + {c}
  {
    assert Proven(Tip(p), Tip(p).holder.value.read.row, c);
    q := RemoveOne(p, p, ProveClient(c, true), cutoff, now);
  }

  lemma {:induction false} ProveRest(p: Path, left: set<Client>, cutoff: Time, now: Time) returns (q: Path)
    requires IsPath(p) && At(Tip(p), Proving) && AllProven(Tip(p), left)
    ensures Extends(q, p, cutoff) && ReadsOn(Tip(q), Tip(p))
    ensures Tip(q).holder.value.read.seen.Keys == Tip(p).holder.value.read.seen.Keys + left
    decreases left
  {
    q := p;
    if left != {} {
      var c :| c in left;
      assert AllProven(Tip(p), {c}) && AllProven(Tip(p), left - {c});
      var one := ProveOne(p, c, cutoff, now);
      StillTrue(Tip(one), Tip(p), left - {c});
      q := ProveRest(one, left - {c}, cutoff, now);
      ReadsOnChain(Tip(q), Tip(one), Tip(p));
      assert {c} + (left - {c}) == left;
    }
  }

  lemma ProveAll(p: Path, row: Row, cutoff: Time, now: Time) returns (q: Path)
    requires IsPath(p) && At(Tip(p), Proving) && Tip(p).holder.value.read.row == row
    requires forall c :: c in row.clients ==> Proven(Tip(p), row, c)
    ensures Extends(q, p, cutoff) && ReadsOn(Tip(q), Tip(p)) && row.clients.Keys <= Tip(q).holder.value.read.seen.Keys
  {
    q := ProveRest(p, row.clients.Keys, cutoff, now);
  }

  // The cell after a removal that stopped when these snapshots were gone.
  function Pruned(s: Cell, gone: set<Client>): Cell
    requires s.holder.Some?
  {
    s.(snaps := s.snaps - gone,
       marks := s.marks.(forgot := s.marks.forgot || (At(s, Forgetting) && gone * s.snaps.Keys != {})))
  }

  lemma PruneOne(q: Path, p: Path, gone: set<Client>, c: Client, cutoff: Time, now: Time) returns (r: Path)
    requires Extends(q, p, cutoff) && IsPath(p) && Tip(p).holder.Some? && Removing(Tip(p).holder.value.stage)
    requires Tip(q) == Pruned(Tip(p), gone) && c in Tip(p).snaps && c !in gone
    ensures Extends(r, p, cutoff) && Tip(r) == Pruned(Tip(p), gone + {c})
  {
    var s := Tip(p);
    assert s.snaps - gone - {c} == s.snaps - (gone + {c});
    assert c in (gone + {c}) * s.snaps.Keys;
    r := RemoveOne(q, p, RemoveSnap(c), cutoff, now);
  }

  lemma {:induction false} PruneRest(q: Path, p: Path, gone: set<Client>, left: set<Client>, cutoff: Time, now: Time)
    returns (r: Path)
    requires Extends(q, p, cutoff) && IsPath(p) && Tip(p).holder.Some? && Removing(Tip(p).holder.value.stage)
    requires Tip(q) == Pruned(Tip(p), gone) && left <= Tip(p).snaps.Keys && left !! gone
    ensures Extends(r, p, cutoff) && Tip(r) == Pruned(Tip(p), gone + left)
    decreases left
  {
    r := q;
    if left == {} {
      assert gone + left == gone;
    } else {
      var c :| c in left;
      r := PruneOne(q, p, gone, c, cutoff, now);
      assert gone + {c} + (left - {c}) == gone + left;
      r := PruneRest(r, p, gone + {c}, left - {c}, cutoff, now);
    }
  }

  lemma RemoveSome(p: Path, gone: set<Client>, cutoff: Time, now: Time) returns (q: Path)
    requires IsPath(p) && Tip(p).holder.Some? && Removing(Tip(p).holder.value.stage)
    ensures Extends(q, p, cutoff) && Tip(q) == Pruned(Tip(p), gone)
  {
    var s := Tip(p);
    var left := gone * s.snaps.Keys;
    assert s.snaps - {} == s.snaps && {} + left == left;
    assert s.snaps - left == s.snaps - gone && left * s.snaps.Keys == left;
    q := PruneRest(p, p, {}, left, cutoff, now);
  }

  // ---- when a row can be collected ----

  // An aged `adopting` row of a dead run: no binding, no manifest, and every
  // recorded client provably untouched by Install.
  ghost predicate Orphan(s: Cell, row: Row, cutoff: Time) {
    && s.holder.None? && s.row == Some(row) && row.state == Adopting && row.updatedAt < cutoff
    && !Committed(s) && forall c :: c in row.clients ==> Proven(s, row, c)
  }

  lemma ReachClassifying(p: Path, row: Row, cutoff: Time, now: Time) returns (q: Path)
    requires IsPath(p) && Orphan(Tip(p), row, cutoff)
    ensures Extends(q, p, cutoff) && At(Tip(q), Classifying) && Tip(q) == Goto(Tip(p), Tip(q).holder.value)
    ensures Tip(q).holder.value.read.row == row && Tip(q).holder.value.lane == GcLane
  {
    q := Proceed(p, p, Take(ForGc(row.updatedAt, cutoff)), cutoff, now);
    q := Proceed(q, p, Reread, cutoff, now);
  }

  lemma ReachProving(p: Path, row: Row, cutoff: Time, now: Time) returns (q: Path)
    requires IsPath(p) && Orphan(Tip(p), row, cutoff)
    ensures Extends(q, p, cutoff) && At(Tip(q), Proving) && Tip(q) == Goto(Tip(p), Tip(q).holder.value)
    ensures Tip(q).holder.value.read.row == row && Tip(q).holder.value.lane == GcLane
  {
    q := ReachClassifying(p, row, cutoff, now);
    forall c | c in row.adoptClients ensures !Bound(Tip(q), row, c) {
      assert !Bound(Tip(p), row, c);
    }
    q := ClassifyAll(q, row, cutoff, now);
    q := RemoveOne(q, p, CheckManifest(true), cutoff, now);
    q := RemoveOne(q, p, RecheckManifest(true), cutoff, now);
  }

  lemma ReachReaping(p: Path, row: Row, cutoff: Time, now: Time) returns (q: Path)
    requires IsPath(p) && Orphan(Tip(p), row, cutoff)
    ensures Extends(q, p, cutoff) && At(Tip(q), Reaping) && Tip(q) == Goto(Tip(p), Tip(q).holder.value)
    ensures Tip(q).holder.value.lane == GcLane
  {
    q := ReachProving(p, row, cutoff, now);
    forall c | c in row.clients ensures Proven(Tip(q), row, c) {
      assert Proven(Tip(p), row, c);
    }
    q := ProveAll(q, row, cutoff, now);
    q := RemoveOne(q, p, StartReap, cutoff, now);
  }

  lemma OrphanIsCollected(p: Path, row: Row, cutoff: Time, now: Time) returns (q: Path)
    requires IsPath(p) && Orphan(Tip(p), row, cutoff)
    ensures Extends(q, p, cutoff) && Tip(q) == Tip(p).(row := None, snaps := map[], marks := CLEAN)
  {
    var r := ReachReaping(p, row, cutoff, now);
    q := RemoveSome(r, Tip(r).snaps.Keys, cutoff, now);
    assert Tip(q).snaps == map[];
    q := RemoveOne(q, p, FinishRemove, cutoff, now);
  }

  // A pass over s that has not begun to remove anything.
  ghost predicate Waiting(t: Cell, s: Cell, row: Row, cutoff: Time) {
    && t == s.(holder := t.holder)
    && (t.holder.Some? ==>
          var w := t.holder.value;
          match w.stage
          case GcStart => w.cutoff == cutoff
          case Classifying | Guarding | Proving => w.lane == GcLane && row.updatedAt < cutoff
            && Examined(s, w.stage, w.read, row)
          case _ => false)
  }

  ghost predicate Examined(s: Cell, g: Stage, r: Reading, row: Row) {
    && r.row == row
    && (forall c :: c in r.cleared ==> !Bound(s, row, c))
    && (g != Classifying ==> !s.manifest && row.adoptClients <= r.cleared)
    && (forall c :: c in r.seen ==> Proven(s, row, c))
  }

  lemma WaitingGoesOn(t: Cell, s: Cell, row: Row, cutoff: Time, e: Event, now: Time)
    requires s.holder.None? && s.row == Some(row) && row.state == Adopting && Waiting(t, s, row, cutoff)
    requires Enabled(t, e) && Collecting(e, cutoff)
    ensures Waiting(Step(t, e, now), s, row, cutoff) || Orphan(s, row, cutoff)
  {
    if e.Take? || e.Reread? {
      assert Step(t, e, now) == OpenStep(t, e, now);
    } else {
      var r := t.holder.value.read;
      match e
      case ClassifyClient(c, _) => assert Bound(t, row, c) == Bound(s, row, c);
      case ProveClient(c, _) => assert Proven(t, row, c) == Proven(s, row, c);
      case StartReap =>
        forall c | c in row.clients ensures Proven(s, row, c) { assert c in r.seen; }
      case CheckManifest(_) =>
      case RecheckManifest(_) =>
    }
  }

  lemma {:induction false} CollectedWasOrphan(p: Path, row: Row, cutoff: Time)
    requires IsPath(p) && OnlyCollects(p, cutoff)
    requires Origin(p).holder.None? && Origin(p).row == Some(row) && row.state == Adopting
    ensures Waiting(Tip(p), Origin(p), row, cutoff) || Orphan(Origin(p), row, cutoff)
  {
    if p.Go? {
      CollectedWasOrphan(p.prev, row, cutoff);
      if !Orphan(Origin(p), row, cutoff) { WaitingGoesOn(Tip(p.prev), Origin(p), row, cutoff, p.e, p.now); }
    }
  }

  ghost predicate CollectedBy(p: Path, s: Cell, cutoff: Time) {
    IsPath(p) && Origin(p) == s && OnlyCollects(p, cutoff) && Tip(p) == s.(row := None, snaps := map[], marks := CLEAN)
  }

  /** What the collector removes when nothing else moves, both ways: some passes end
      with the row and its snapshots gone and the client configs untouched exactly when
      the row is an aged orphan; otherwise no pass removes anything at all. */
  lemma OrphanExactly(s: Cell, row: Row, cutoff: Time)
    requires s.holder.None? && s.row == Some(row) && row.state == Adopting
    ensures (exists p :: CollectedBy(p, s, cutoff)) <==> Orphan(s, row, cutoff)
    ensures !Orphan(s, row, cutoff) ==>
              forall p :: IsPath(p) && Origin(p) == s && OnlyCollects(p, cutoff) ==>
                  Tip(p) == s.(holder := Tip(p).holder)
  {
    if Orphan(s, row, cutoff) {
      var p := OrphanIsCollected(From(s), row, cutoff, 0);
      assert CollectedBy(p, s, cutoff);
    } else {
      forall p | IsPath(p) && Origin(p) == s && OnlyCollects(p, cutoff) ensures Tip(p) == s.(holder := Tip(p).holder) {
        CollectedWasOrphan(p, row, cutoff);
      }
      assert forall p :: CollectedBy(p, s, cutoff) ==> Tip(p) == s.(holder := Tip(p).holder);
    }
  }

  // ---- when it stays collectable ----

  // The snapshot of every pinned client is still there, and none of them is the row's
  // own hub binding.
  ghost predicate Keepable(s: Cell, row: Row, c: Client)
    requires c in row.clients
  {
    row.clients[c].Pinned? ==>
      c in s.snaps && s.snaps[c] == row.clients[c].entry && row.clients[c].entry != Hub(row.port)
  }

  ghost predicate Reclaimable(s: Cell, row: Row) {
    forall c :: c in row.clients ==> Keepable(s, row, c)
  }

  // A row that no lane will ever take: one client can never be proven.
  ghost predicate Stranded(s: Cell, row: Row, c: Client) {
    && s.row == Some(row) && row.state == Adopting && c in row.clients && !Keepable(s, row, c)
    && (s.holder.Some? ==>
          match s.holder.value.stage
          case AdoptStart | GcStart | DirStart | OtherHolder => true
          case Classifying | Guarding | Proving => s.holder.value.read.row == row && c !in s.holder.value.read.seen
          case _ => false)
  }

  lemma StrandedOpens(s: Cell, row: Row, c: Client, e: Event, now: Time)
    requires Stranded(s, row, c) && CanOpen(s, e) && e != Take(ForDeAdopt) && e != Take(ForForget)
    ensures Stranded(OpenStep(s, e, now), row, c)
  {
    match e
    case Begin => assert Stranded(DoBegin(s, s.holder.value, now), row, c);
    case Reread => assert Stranded(DoReread(s, s.holder.value), row, c);
    case CheckDir =>
    case Take(_) =>
  }

  lemma StrandedKeeps(s: Cell, row: Row, c: Client, e: Event, now: Time)
    requires Stranded(s, row, c) && CanRemove(s, e)
    ensures Stranded(RemoveStep(s, e, now), row, c)
  {
    match e
    case ClassifyClient(d, ok) => assert Stranded(DoClassify(s, s.holder.value, d, ok), row, c);
    case CheckManifest(ok) => assert Stranded(DoCheckManifest(s, s.holder.value, ok), row, c);
    case RecheckManifest(ok) => assert Stranded(DoRecheck(s, s.holder.value, ok), row, c);
    case ProveClient(d, ok) =>
      assert !Proven(s, row, c);
      assert Stranded(DoProve(s, s.holder.value, d, ok), row, c);
  }

  lemma StrandedElsewhere(s: Cell, row: Row, c: Client, e: Event)
    requires Stranded(s, row, c) && CanOther(s, e)
    ensures Stranded(OtherStep(s, e), row, c)
  {
    match e
    case EditOutside(d, e') => assert Stranded(DoEdit(s, d, e'), row, c);
    case Release =>
    case PublishManifest(_) =>
    case WriteClient(_, _) =>
    case DropManifestOutside =>
  }

  lemma StrandedStays(s: Cell, row: Row, c: Client, e: Event, now: Time)
    requires Stranded(s, row, c) && Enabled(s, e) && e != Take(ForDeAdopt) && e != Take(ForForget)
    ensures Stranded(Step(s, e, now), row, c)
  {
    if Opening(e) {
      StrandedOpens(s, row, c, e, now);
    } else if Removal(e) {
      StrandedKeeps(s, row, c, e, now);
    } else if !Running(e) {
      StrandedElsewhere(s, row, c, e);
    }
  }

  lemma {:induction false} StrandedForever(p: Path, row: Row, c: Client)
    requires IsPath(p) && Unrepaired(p) && Stranded(Origin(p), row, c)
    ensures Stranded(Tip(p), row, c)
  {
    if p.Go? {
      StrandedForever(p.prev, row, c);
      StrandedStays(Tip(p.prev), row, c, p.e, p.now);
    }
  }

  // The client configs as a run that never installed would have left them.
  function Wanted(row: Row, c: Client): Entry {
    if c in row.clients && row.clients[c].Pinned? then row.clients[c].entry else Absent
  }

  lemma RestoreByHand(p: Path, row: Row, whom: set<Client>, now: Time) returns (q: Path)
    requires IsPath(p) && Tip(p).holder.None?
    ensures IsPath(q) && Origin(q) == Origin(p) && (Unrepaired(p) ==> Unrepaired(q))
    ensures Tip(q) == Tip(p).(live := Tip(q).live)
    ensures forall c :: c in whom ==> Live(Tip(q), c) == Wanted(row, c)
  {
    q := p;
    var left := whom;
    while left != {}
      invariant left <= whom && IsPath(q) && Origin(q) == Origin(p) && (Unrepaired(p) ==> Unrepaired(q))
      invariant Tip(q) == Tip(p).(live := Tip(q).live)
      invariant forall c :: c in whom - left ==> Live(Tip(q), c) == Wanted(row, c)
    {
      var c :| c in left;
      q := Go(q, EditOutside(c, Wanted(row, c)), now);
      left := left - {c};
    }
  }

  lemma ReclaimableIsCollected(s: Cell, row: Row) returns (p: Path)
    requires s.holder.None? && s.row == Some(row) && row.state == Adopting && Reclaimable(s, row)
    ensures IsPath(p) && Origin(p) == s && Unrepaired(p) && Tip(p).row.None?
  {
    assert Unrepaired(From(s));
    p := Go(From(s), DropManifestOutside, 0);
    p := RestoreByHand(p, row, row.adoptClients + row.clients.Keys, 0);
    var t := Tip(p);
    forall c | c in row.adoptClients ensures !Bound(t, row, c) {
      assert c in row.clients ==> Keepable(s, row, c);
    }
    forall c | c in row.clients ensures Proven(t, row, c) {
      assert Keepable(s, row, c);
    }
    p := OrphanIsCollected(p, row, row.updatedAt + 1, 0);
  }

  ghost predicate Reclaims(p: Path, s: Cell) {
    IsPath(p) && Origin(p) == s && Unrepaired(p) && Tip(p).row != s.row
  }

  /** An `adopting` row whose run is gone stays within reach of the two reap lanes, over
      all runs without a de-adopt or a forget, exactly as long as every snapshot it
      pinned is still there (and none of them is its own hub binding). */
  lemma ReclaimableExactly(s: Cell, row: Row)
    requires s.holder.None? && s.row == Some(row) && row.state == Adopting
    ensures (exists p :: Reclaims(p, s)) <==> Reclaimable(s, row)
  {
    if Reclaimable(s, row) {
      var p := ReclaimableIsCollected(s, row);
      assert Reclaims(p, s);
    } else {
      var c :| c in row.clients && !Keepable(s, row, c);
      forall p | IsPath(p) && Origin(p) == s && Unrepaired(p) ensures !Reclaims(p, s) {
        StrandedForever(p, row, c);
      }
    }
  }

  // ---- two runs that the code admits ----

  lemma Act(tr: Trace, m: Manifest, e: Event) returns (more: Trace)
    requires IsRun(tr) && Enabled(CellIn(tr, m), e)
    ensures IsRun(more) && End(more).now == End(tr).now
    ensures CellIn(more, m) == Step(CellIn(tr, m), e, End(tr).now)
  {
    more := Then(tr, On(m, e));
  }

  lemma ActOpens(tr: Trace, m: Manifest, e: Event) returns (more: Trace)
    requires IsRun(tr) && CanOpen(CellIn(tr, m), e)
    ensures IsRun(more) && End(more).now == End(tr).now
    ensures CellIn(more, m) == OpenStep(CellIn(tr, m), e, End(tr).now)
  {
    assert Opening(e);
    more := Act(tr, m, e);
  }

  lemma ActRemoves(tr: Trace, m: Manifest, e: Event) returns (more: Trace)
    requires IsRun(tr) && CanRemove(CellIn(tr, m), e)
    ensures IsRun(more) && End(more).now == End(tr).now
    ensures CellIn(more, m) == RemoveStep(CellIn(tr, m), e, End(tr).now)
  {
    assert Removal(e);
    more := Act(tr, m, e);
  }

  lemma ActRuns(tr: Trace, m: Manifest, e: Event) returns (more: Trace)
    requires IsRun(tr) && CanRun(CellIn(tr, m), e)
    ensures IsRun(more) && End(more).now == End(tr).now
    ensures CellIn(more, m) == RunStep(CellIn(tr, m), e, End(tr).now)
  {
    assert Running(e);
    more := Act(tr, m, e);
  }

  lemma ActOther(tr: Trace, m: Manifest, e: Event) returns (more: Trace)
    requires IsRun(tr) && CanOther(CellIn(tr, m), e)
    ensures IsRun(more) && End(more).now == End(tr).now
    ensures CellIn(more, m) == OtherStep(CellIn(tr, m), e)
  {
    assert KindOf(e) == Elsewhere;
    more := Act(tr, m, e);
  }

  lemma PlayAnchor(m: Manifest, c: Client, live: map<Client, Entry>, port: nat) returns (tr: Trace)
    ensures IsRun(tr) && End(tr).now == 0
    ensures CellIn(tr, m) == EMPTY.(live := live, row := Some(Row(Adopting, 0, port, {c}, map[])),
                                    holder := Some(BLANK.(stage := Capturing, port := port, plan := {c})))
  {
    tr := Start(World(map[m := EMPTY.(live := live)], 0));
    tr := ActOpens(tr, m, Take(ForAdopt(port, {c})));
    tr := ActOpens(tr, m, Begin);
  }

  lemma PlayCapture(m: Manifest, c: Client, v: nat, port: nat) returns (tr: Trace)
    ensures IsRun(tr) && End(tr).now == 0
    ensures var s := CellIn(tr, m);
            && At(s, Executing) && !s.manifest && s.live == map[c := Native(v)] && s.snaps == map[c := Native(v)]
            && s.row == Some(Row(Adopting, 0, port, {c}, map[c := Pinned(Native(v))]))
  {
    tr := PlayAnchor(m, c, map[c := Native(v)], port);
    tr := ActRuns(tr, m, PinClient(c));
    tr := ActRuns(tr, m, Finalize);
  }

  lemma PlayAbort(m: Manifest, c: Client, v: nat, port: nat) returns (tr: Trace)
    ensures IsRun(tr)
    ensures var s := CellIn(tr, m);
            && At(s, Aborting) && !s.manifest && s.live == map[c := Native(v)] && c !in s.snaps
            && s.row == Some(Row(Adopting, 0, port, {c}, map[c := Pinned(Native(v))]))
  {
    tr := PlayCapture(m, c, v, port);
    tr := ActRuns(tr, m, StartAbort);
    tr := ActRemoves(tr, m, RemoveSnap(c));
  }

  /** An abort that fails after it has removed a snapshot strands its own row: the row
      remains, the client config was never touched, and no lane will take it again. */
  lemma InterruptedAbortStrands(m: Manifest, c: Client, v: nat, port: nat) returns (tr: Trace)
    ensures IsRun(tr)
    ensures var s := CellIn(tr, m);
            && s.row.Some? && Stranded(s, s.row.value, c) && s.holder.None?
            && !s.manifest && Live(s, c) == Native(v) && s.row.value.clients[c] == Pinned(Native(v))
  {
    tr := PlayAbort(m, c, v, port);
    tr := ActOther(tr, m, Release);
  }

  lemma PlayCandidate(m: Manifest, c: Client, port: nat) returns (tr: Trace)
    ensures IsRun(tr) && End(tr).now == 0
    ensures var row := Row(Adopting, 0, port, {c}, map[]);
            CellIn(tr, m) == EMPTY.(row := Some(row),
                                    holder := Some(BLANK.(stage := GcStart, expected := 0, cutoff := 1)))
  {
    tr := PlayAnchor(m, c, map[], port);
    tr := ActOther(tr, m, Release);
    tr := ActOpens(tr, m, Take(ForGc(0, 1)));
  }

  lemma PlayClassified(m: Manifest, c: Client, port: nat) returns (tr: Trace)
    ensures IsRun(tr) && End(tr).now == 0
    ensures var s, row := CellIn(tr, m), Row(Adopting, 0, port, {c}, map[]);
            && s.snaps == map[] && s.row == Some(row) && !s.manifest
            && At(s, Classifying) && s.holder.value.lane == GcLane
              && s.holder.value.read == Reading(row, {c}, map[], {})
  {
    tr := PlayCandidate(m, c, port);
    tr := ActOpens(tr, m, Reread);
    tr := ActRemoves(tr, m, ClassifyClient(c, true));
  }

  lemma PlayReaping(m: Manifest, c: Client, port: nat) returns (tr: Trace)
    ensures IsRun(tr) && End(tr).now == 0
    ensures var s := CellIn(tr, m);
            At(s, Reaping) && s.snaps == map[] && s.row == Some(Row(Adopting, 0, port, {c}, map[]))
  {
    tr := PlayClassified(m, c, port);
    tr := ActRemoves(tr, m, CheckManifest(true));
    tr := ActRemoves(tr, m, RecheckManifest(true));
    tr := ActRemoves(tr, m, StartReap);
  }

  lemma LateEditCommits(s: Cell, c: Client)
    requires At(s, Reaping) && s.snaps == map[] && s.row.Some? && c in s.row.value.adoptClients
    ensures var t := DoEdit(s, c, Hub(s.row.value.port)); Reaps(t, FinishRemove) && Committed(t)
  {
    var t := DoEdit(s, c, Hub(s.row.value.port));
    assert c in t.row.value.adoptClients && Bound(t, t.row.value, c);
  }

  /** The exception is real: a binding made without the lease, after the collector has
      read the client, is not seen again before the row goes. */
  lemma LateBindingIsReaped(m: Manifest, c: Client, port: nat) returns (tr: Trace)
    ensures IsRun(tr) && Reaps(CellIn(tr, m), FinishRemove) && Committed(CellIn(tr, m))
  {
    tr := PlayReaping(m, c, port);
    LateEditCommits(CellIn(tr, m), c);
    tr := ActOther(tr, m, EditOutside(c, Hub(port)));
  }
}
