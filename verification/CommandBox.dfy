/** `Box`, `publish`, `read_command`, `observe`, `historical_receipt` and `execute` of
    scripts/rekey-controlplane.py, killed anywhere, over arbitrary answers of the CLI. */
module CommandBox {
  import opened AuditExport
  import opened AuditSearch
  import opened CommandStore
  import opened Outcomes

  // ---------------------------------------------------------------- the calls

  datatype Operation = Apply | AskStatus | Reconcile

  datatype Reply =
    | Observed(command: Command, status: Status)
    | Applied(receipt: Receipt)
    | Historical(stored: Receipt, current: string, currentVersion: int)
    | Rejected
    | Unknown

  /** The trust record given to `publish`. */
  datatype Trust = Trust(wellFormed: bool, signer: string, sha: string)

  /** No file came or went and nothing was dispatched. */
  ghost predicate Quiet(w: World, v: World) {
    && w.log <= v.log && Grows(w.disk, v.disk) && Sound(v.disk) && v.disk.files.Keys == w.disk.files.Keys
    && NoDispatch(v.log, |w.log|)
  }

  /** Receipts stay good when the log and the disk grow; new ones must be torn or good. */
  lemma ReceiptsKept(w: World, v: World)
    requires GoodReceipts(w) && w.log <= v.log && Grows(w.disk, v.disk)
    requires forall id :: ReceiptFile(id) in v.disk.files && ReceiptFile(id) !in w.disk.files ==>
                            v.disk.files[ReceiptFile(id)].data.Torn? || GoodReceipt(v, id)
    ensures GoodReceipts(v)
  {
    forall id | ReceiptFile(id) in v.disk.files && v.disk.files[ReceiptFile(id)].data.Whole? ensures GoodReceipt(v, id) {
      if ReceiptFile(id) in w.disk.files {
        assert GoodReceipt(w, id);
        var r := w.disk.files[ReceiptFile(id)].data.doc.receipt;
        var i, j :| 0 <= i < j < |w.log| && WitnessedBy(w.log, i, j, r);
        assert WitnessedBy(v.log, i, j, r);
      }
    }
  }

  lemma QuietIsCalled(w: World, v: World)
    requires GoodReceipts(w) && Quiet(w, v)
    ensures Called(w, v) && Follows(w, v)
  {
    ReceiptsKept(w, v);
  }

  /** What `observe` may confirm. */
  ghost predicate Confirmed(reply: Reply, c: Command, w: World, v: World) {
    match reply
    case Applied(receipt) => ValidReceipt(receipt, c) && Witnessed(v.log, |w.log|, receipt)
    case Historical(stored, _, _) =>
      && ReceiptFile(c.id) in v.disk.files && v.disk.files[ReceiptFile(c.id)] == File(Whole(ReceiptDoc(stored)), true, true)
      && stored.command == c
    case _ => false
  }

  /** What the rest of a call may do once it will dispatch nothing more. */
  ghost predicate Follows(w: World, v: World) {
    && w.log <= v.log && Grows(w.disk, v.disk) && Sound(v.disk) && GoodReceipts(v) && NewCommands(w.disk, v.disk)
    && NoDispatch(v.log, |w.log|)
  }

  lemma LaunchedFollows(w: World, u: World, v: World, t: Target, id: string, a: Artifact, at: Times)
    requires Launched(w, u, t, id, a, at) && w.log <= u.log && Follows(u, v)
    ensures Launched(w, v, t, id, a, at)
  {
    assert v.log[|w.log|] == u.log[|w.log|] && v.log[|w.log| + 1] == u.log[|w.log| + 1];
    forall i | |w.log| + 2 <= i < |v.log| ensures !v.log[i].Dispatch? {
      assert i < |u.log| ==> u.log[i] == v.log[i];
    }
  }

  lemma FollowsIsTransitive(w: World, u: World, v: World)
    requires Follows(w, u) && Follows(u, v)
    ensures Follows(w, v)
  {
    GrowsIsTransitive(w.disk, u.disk, v.disk);
    forall i | |w.log| <= i < |v.log| ensures !v.log[i].Dispatch? {
      assert i < |u.log| ==> u.log[i] == v.log[i];
    }
  }

  /** Where a launch stands once the intent is there and the child may have started. */
  lemma EndOfLaunch(w: World, u: World, m: World, t: Target, id: string, a: Artifact, at: Times)
    requires Follows(w, u) && IntentFile(id) !in w.disk.files && HasIntent(u.disk, id, Bindings(t, id, a))
    requires GoodArtifact(a, t) && OnTime(a, t, at) && Stored(w.disk, id, t, a)
    requires |u.log| == |w.log| + 1 && u.log[|w.log|].Preflight? && u.log[|w.log|].target == t
    requires m.disk == u.disk && (m.log == u.log || m.log == u.log + [Dispatch(Bindings(t, id, a), Whole(PolicyDoc(a)), at)])
    ensures GoodReceipts(m) && w.log <= m.log && Called(w, m)
    ensures forall i :: |w.log| <= i < |m.log| && m.log[i].Dispatch? ==> m.log[i].command.id == id
    ensures m.log != u.log ==> Launched(w, m, t, id, a, at)
  {
    ReceiptsKept(u, m);
    if m.log != u.log {
      assert m.log[|w.log|] == u.log[|w.log|];
      LaunchedIsCalled(w, m, t, id, a, at);
    }
  }

  /** What a call may answer. */
  ghost predicate Answers(reply: Reply, op: Operation, id: string, w: World, v: World) {
    match reply
    case Observed(c, _) => op == AskStatus && c.id == id
    case Applied(r) => op != AskStatus && r.command.id == id && ValidReceipt(r, r.command) && Witnessed(v.log, |w.log|, r)
    case Historical(r, _, _) =>
      && op != AskStatus && ReceiptFile(id) in v.disk.files
      && v.disk.files[ReceiptFile(id)] == File(Whole(ReceiptDoc(r)), true, true) && GoodReceipt(v, id)
    case Rejected => op != Reconcile && NoDispatch(v.log, |w.log|)
    case Unknown => op != AskStatus
  }

  lemma ConfirmedAnswers(reply: Reply, c: Command, op: Operation, w: World, u: World, v: World)
    requires Confirmed(reply, c, u, v) && w.log <= u.log && GoodReceipts(v) && op != AskStatus
    ensures Answers(reply, op, c.id, w, v)
  {
  }

  class Box {
    var disk: Disk
    ghost var log: seq<Event>

    constructor (disk: Disk)
      ensures this.disk == disk && log == []
    {
      this.disk, log := disk, [];
    }

    ghost function State(): World
      reads this
    {
      World(disk, log)
    }

    method Clock() returns (now: int)
      ensures 0 <= now <= MAX_NUMBER
    {
      now :| 0 <= now <= MAX_NUMBER;
    }

    // -------------------------------------------------------------- opening

    method EnsureDir(x: Dir) returns (r: Outcome<()>)
      requires Sound(disk) && !x.Root? && !x.CommandDir? && Present(disk, Parent(x))
      modifies this`disk
      ensures Grows(old(disk), disk) && Sound(disk) && disk.files.Keys == old(disk).files.Keys
      ensures r.Done? ==> x in disk.dirs && (AllSynced(old(disk)) ==> AllSynced(disk))
    {
      if x !in disk.dirs {
        var _ :- Fault();
        MakeKeeps(disk, x);
        disk := MakeDir(disk, x);
        var _ :- Fault();
        SyncKeeps(disk, Parent(x));
        GrowsIsTransitive(old(disk), disk, SyncDir(disk, Parent(x)));
        disk := SyncDir(disk, Parent(x));
        var _ :- Fault();
      }
      return Done(());
    }

    /** `Box.__init__`. The directories are synced afterwards unless one was found unsynced. */
    method Open() returns (r: Outcome<()>)
      requires Sound(disk) && GoodReceipts(State())
      modifies this`disk
      ensures Called(old(State()), State()) && disk.files.Keys == old(disk).files.Keys
      ensures r.Done? ==> Nodes in disk.dirs && Node in disk.dirs && Commands in disk.dirs && Receipts in disk.dirs
      ensures r.Done? && AllSynced(old(disk)) ==> Firm(disk) && AllSynced(disk)
    {
      var names := [Nodes, Node, Commands, Receipts];
      ghost var w := State();
      QuietIsCalled(w, w);
      for i := 0 to 4
        invariant Sound(disk) && Grows(w.disk, disk) && disk.files.Keys == w.disk.files.Keys && Called(w, State())
        invariant i > 0 ==> Nodes in disk.dirs
        invariant i > 1 ==> Node in disk.dirs
        invariant i > 2 ==> Commands in disk.dirs
        invariant i > 3 ==> Receipts in disk.dirs
        invariant AllSynced(w.disk) ==> AllSynced(disk)
      {
        ghost var d := disk;
        var made := EnsureDir(names[i]);
        GrowsIsTransitive(w.disk, d, disk);
        QuietIsCalled(w, State());
        var _ :- made;
      }
      return Done(());
    }

    // -------------------------------------------------------------- files

    /** `Box.read`, of a file that decodes to its record. */
    method Read(p: Path) returns (r: Outcome<Doc>)
      ensures r.Done? ==> p in disk.files && disk.files[p].data == Whole(r.value)
    {
      var _ :- Fault();
      if p in disk.files && disk.files[p].data.Whole? {
        return Done(disk.files[p].data.doc);
      }
      return Failed;
    }

    /** `Box.write`. */
    method Write(p: Path, doc: Doc) returns (r: Outcome<()>, ghost k: nat)
      requires Sound(disk) && (p.ReceiptFile? || (Holder(p) in disk.dirs && disk.dirs[Holder(p)]))
      modifies this`disk
      ensures k <= 4 && disk == WriteAt(old(disk), p, doc, k)
      ensures p in old(disk).files || !Present(old(disk), Holder(p)) ==> k == 0 && !r.Done?
      ensures r.Done? ==> k == 4
    {
      k := 0;
      var _ :- Fault();
      if p in disk.files || !Present(disk, Holder(p)) {
        return Failed, 0;
      }
      disk, k := PutFile(disk, p, File(Torn, false, false)), 1;
      var _ :- Fault();
      disk, k := PutFile(disk, p, File(Whole(doc), false, false)), 2;
      assert disk == WriteAt(old(disk), p, doc, 2);
      var _ :- Fault();
      disk, k := SyncFile(disk, p), 3;
      assert disk == WriteAt(old(disk), p, doc, 3);
      var _ :- Fault();
      disk, k := SyncDir(disk, Holder(p)), 4;
      var _ :- Fault();
      r := Done(());
    }

    /** `Box.create`. */
    method Create(id: string) returns (r: Outcome<()>)
      requires Sound(disk)
      modifies this`disk
      ensures Grows(old(disk), disk) && Sound(disk) && disk.files.Keys == old(disk).files.Keys
      ensures r.Done? ==> CommandDir(id) in disk.dirs && disk.dirs[CommandDir(id)]
    {
      var _ :- Fault();
      if Commands !in disk.dirs || CommandDir(id) in disk.dirs {
        return Failed;
      }
      disk := MakeDir(disk, CommandDir(id));
      var _ :- Fault();
      disk := SyncDir(disk, Commands);
      var _ :- Fault();
      r := Done(());
    }

    // -------------------------------------------------------------- publishing

    /** `publish`. */
    method Publish(t: Target, id: string, raw: Artifact, trust: Trust) returns (r: Outcome<Command>)
      requires Sound(disk) && GoodReceipts(State())
      modifies this`disk
      ensures disk.files.Keys <= old(disk).files.Keys + {PolicyFile(id), CommandFile(id)}
      ensures Called(old(State()), State())
      ensures CommandDir(id) in old(disk).dirs ==> disk == old(disk)
      ensures r.Done? ==>
                && GoodArtifact(raw, t) && r.value == Bindings(t, id, raw)
                && PolicyFile(id) in disk.files && disk.files[PolicyFile(id)].data == Whole(PolicyDoc(raw))
                && CommandFile(id) in disk.files && disk.files[CommandFile(id)].data == Whole(CommandDoc(r.value))
    {
      ghost var w := State();
      QuietIsCalled(w, w);
      var now := Clock();
      if now >= t.registrationExpiresAt || !GoodArtifact(raw, t) || !InLifetime(raw, t, now)
         || !(trust.wellFormed && trust.signer == t.signer && trust.sha == t.trustSha) {
        return Failed;
      }
      var command := Bindings(t, id, raw);
      if CommandDir(id) in disk.dirs {
        var c :- Read(CommandFile(id));
        var a :- Read(PolicyFile(id));
        return if c == CommandDoc(command) && a == PolicyDoc(raw) then Done(command) else Failed;
      }
      r := PublishNew(id, raw, command);
    }

    /** The writes of `publish`: the directory, the artifact, then the command. */
    method PublishNew(id: string, raw: Artifact, command: Command) returns (r: Outcome<Command>)
      requires Sound(disk) && GoodReceipts(State()) && CommandDir(id) !in disk.dirs
      modifies this`disk
      ensures disk.files.Keys <= old(disk).files.Keys + {PolicyFile(id), CommandFile(id)}
      ensures Called(old(State()), State())
      ensures r.Done? ==>
                && r.value == command
                && PolicyFile(id) in disk.files && disk.files[PolicyFile(id)] == File(Whole(PolicyDoc(raw)), true, true)
                && CommandFile(id) in disk.files && disk.files[CommandFile(id)] == File(Whole(CommandDoc(command)), true, true)
    {
      ghost var w := State();
      var created := Create(id);
      QuietIsCalled(w, State());
      var _ :- created;
      r := AddBoth(id, raw, command, w);
    }

    method AddBoth(id: string, raw: Artifact, command: Command, ghost w: World) returns (r: Outcome<Command>)
      requires Follows(w, State()) && CommandDir(id) in disk.dirs && disk.dirs[CommandDir(id)] && CommandDir(id) !in w.disk.dirs
      modifies this`disk
      ensures Follows(w, State()) && disk.files.Keys <= old(disk).files.Keys + {PolicyFile(id), CommandFile(id)}
      ensures r.Done? ==>
                && r.value == command
                && PolicyFile(id) in disk.files && disk.files[PolicyFile(id)] == File(Whole(PolicyDoc(raw)), true, true)
                && CommandFile(id) in disk.files && disk.files[CommandFile(id)] == File(Whole(CommandDoc(command)), true, true)
    {
      var _ :- Add(PolicyFile(id), PolicyDoc(raw), w);
      ghost var d := disk;
      var added := Add(CommandFile(id), CommandDoc(command), w);
      assert Improves(d.files[PolicyFile(id)], disk.files[PolicyFile(id)]);
      var _ :- added;
      return Done(command);
    }

    /** A write that adds an artifact, a command or an intent to what the call has done. */
    method Add(p: Path, doc: Doc, ghost w: World) returns (r: Outcome<()>)
      requires Follows(w, State()) && !p.ReceiptFile? && Holder(p) in disk.dirs && disk.dirs[Holder(p)]
      requires p.IntentFile? || CommandDir(p.id) !in w.disk.dirs
      modifies this`disk
      ensures Follows(w, State()) && Grows(old(disk), disk) && disk.files.Keys <= old(disk).files.Keys + {p}
      ensures r.Done? ==> p !in old(disk).files && p in disk.files && disk.files[p] == File(Whole(doc), true, true)
    {
      ghost var u, k := State(), 0;
      r, k := Write(p, doc);
      if p !in u.disk.files {
        Wrote(u.disk, p, doc, k);
      }
      GrowsIsTransitive(w.disk, u.disk, disk);
      ReceiptsKept(u, State());
    }

    /** `read_command`. */
    method ReadCommand(t: Target, id: string) returns (r: Outcome<(Command, Artifact)>)
      ensures r.Done? ==>
                GoodArtifact(r.value.1, t) && r.value.0 == Bindings(t, id, r.value.1) && Stored(disk, id, t, r.value.1)
    {
      var a :- Read(PolicyFile(id));
      var c :- Read(CommandFile(id));
      if a.PolicyDoc? && GoodArtifact(a.artifact, t) && c == CommandDoc(Bindings(t, id, a.artifact)) {
        return Done((c.command, a.artifact));
      }
      return Failed;
    }

    // -------------------------------------------------------------- the CLI

    /** `preflight`. */
    method RunPreflight(t: Target) returns (r: Outcome<Status>)
      modifies this`log
      ensures r.Done? ==> log == old(log) + [Preflight(t, r.value)] && r.value.vault == r.value.tenant == t.vault
      ensures !r.Done? ==> log == old(log)
    {
      var _ :- Fault();
      var status: Status, origin: string :| true;
      if !IsTarget(status, origin, t) {
        return Failed;
      }
      log := log + [Preflight(t, status)];
      return Done(status);
    }

    /** `policy activate`: the child may not start, and may fail or be cut off once it has. */
    method Activate(c: Command, ghost checkedAt: Times) returns (r: Outcome<()>)
      requires PolicyFile(c.id) in disk.files
      modifies this`log
      ensures log == old(log) || log == old(log) + [Dispatch(c, disk.files[PolicyFile(c.id)].data, checkedAt)]
      ensures r.Done? ==> log != old(log)
    {
      var _ :- Fault();
      log := log + [Dispatch(c, disk.files[PolicyFile(c.id)].data, checkedAt)];
      r := Fault();
    }

    // -------------------------------------------------------------- observing

    /** `historical_receipt`: a stored receipt is synced before it is used. */
    method HistoricalReceipt(c: Command) returns (r: Outcome<Option<Receipt>>)
      requires Sound(disk)
      modifies this`disk
      ensures Grows(old(disk), disk) && Sound(disk) && disk.files.Keys == old(disk).files.Keys
      ensures r.Done? ==> (r.value.Some? <==> ReceiptFile(c.id) in disk.files)
      ensures r.Done? && r.value.Some? ==>
                && disk.files[ReceiptFile(c.id)] == File(Whole(ReceiptDoc(r.value.value)), true, true)
                && ValidReceipt(r.value.value, c)
    {
      var p := ReceiptFile(c.id);
      var _ :- Fault();
      if p !in disk.files {
        return Done(None);
      }
      var doc :- Read(p);
      if !(doc.ReceiptDoc? && ValidReceipt(doc.receipt, c)) {
        return Failed;
      }
      disk := SyncFile(disk, p);
      var _ :- Fault();
      disk := SyncDir(disk, Receipts);
      var _ :- Fault();
      return Done(Some(doc.receipt));
    }

    /** `observe`. */
    method Observe(t: Target, c: Command, pager: Pager<Artifact>) returns (r: Outcome<Reply>)
      requires Sound(disk) && c.vault == t.vault
      modifies this
      ensures Quiet(old(State()), State())
      ensures r.Done? ==> Confirmed(r.value, c, old(State()), State())
      ensures r.Done? && r.value.Historical? ==> ReceiptFile(c.id) in old(disk).files
    {
      var actual :- RunPreflight(t);
      var stored :- HistoricalReceipt(c);
      if !IsExact(actual, c) {
        return if stored.Some? then Done(Historical(stored.value, actual.state, actual.version)) else Failed;
      }
      var found, calls := AuditEvidence(pager, ReasonFor(c));
      if found.None? {
        return Failed;
      }
      var (row, max) := found.value;
      ghost var pages :| Searched(pager, ReasonFor(c), Some((row, max)), pages);
      FoundIsGood(pager, ReasonFor(c), row, max, pages);
      log := log + [Evidence(c, row, max)];
      var now := Clock();
      var receipt := Receipt(true, c, actual.tenant, actual.policySha, actual.activatedAt, Number(now), actual.state, row, Number(max));
      assert WitnessedBy(log, |log| - 2, |log| - 1, receipt);
      return Done(Applied(receipt));
    }

    // -------------------------------------------------------------- execute

    /** The end of `execute` after a dispatch: observe, and store the receipt if there is none. */
    method Settle(t: Target, c: Command, pager: Pager<Artifact>) returns (r: Outcome<Reply>)
      requires Sound(disk) && GoodReceipts(State()) && c.vault == t.vault
      modifies this
      ensures disk.files.Keys <= old(disk).files.Keys + {ReceiptFile(c.id)}
      ensures Follows(old(State()), State())
      ensures r.Done? ==> Confirmed(r.value, c, old(State()), State())
      ensures r.Done? ==> ReceiptFile(c.id) in disk.files
    {
      ghost var w := State();
      var observed := Observe(t, c, pager);
      ghost var u := State();
      QuietIsCalled(w, u);
      var reply :- observed;
      var _ :- Fault();
      if ReceiptFile(c.id) in disk.files {
        r := KeepReceipt(c, reply, w);
      } else {
        r := StoreReceipt(c, reply.receipt, w);
      }
    }

    method KeepReceipt(c: Command, reply: Reply, ghost w: World) returns (r: Outcome<Reply>)
      requires Follows(w, State()) && Confirmed(reply, c, w, State()) && ReceiptFile(c.id) in disk.files
      modifies this`disk
      ensures disk.files.Keys == old(disk).files.Keys
      ensures Follows(w, State()) && ReceiptFile(c.id) in disk.files
      ensures r.Done? ==> r.value == reply && Confirmed(reply, c, w, State())
    {
      ghost var u := State();
      var stored := HistoricalReceipt(c);
      QuietIsCalled(u, State());
      FollowsIsTransitive(w, u, State());
      var _ :- stored;
      return Done(reply);
    }

    method StoreReceipt(c: Command, receipt: Receipt, ghost w: World) returns (r: Outcome<Reply>)
      requires Sound(disk) && GoodReceipts(State()) && Follows(w, State())
      requires ReceiptFile(c.id) !in disk.files && ValidReceipt(receipt, c) && Witnessed(log, |w.log|, receipt)
      modifies this`disk
      ensures disk.files.Keys <= old(disk).files.Keys + {ReceiptFile(c.id)}
      ensures Follows(w, State())
      ensures r.Done? ==> r.value == Applied(receipt) && ReceiptFile(c.id) in disk.files
    {
      ghost var u := State();
      var written, k := Write(ReceiptFile(c.id), ReceiptDoc(receipt));
      if Present(u.disk, Receipts) {
        Wrote(u.disk, ReceiptFile(c.id), ReceiptDoc(receipt), k);
      }
      GrowsIsTransitive(w.disk, u.disk, disk);
      assert Witnessed(log, 0, receipt);
      ReceiptsKept(u, State());
      var _ :- written;
      return Done(Applied(receipt));
    }

    /** What `execute` checks just before it dispatches: the target, the artifact's lifetime, the
        node's registration. */
    method LastChecks(t: Target, a: Artifact) returns (r: Outcome<Times>)
      requires Sound(disk) && GoodReceipts(State())
      modifies this`log
      ensures Follows(old(State()), State())
      ensures r.Done? ==> OnTime(a, t, r.value) && |log| == |old(log)| + 1 && log[|old(log)|].Preflight? && log[|old(log)|].target == t
    {
      ghost var w := State();
      var ready := RunPreflight(t);
      QuietIsCalled(w, State());
      var _ :- ready;
      var now := Clock();
      if !InLifetime(a, t, now) {
        return Failed;
      }
      var later := Clock();
      if later >= t.registrationExpiresAt {
        return Failed;
      }
      var _ :- Fault();
      return Done(Times(now, later));
    }

    /** The part of `execute` that may dispatch: no intent was found. */
    method Launch(t: Target, id: string, a: Artifact, pager: Pager<Artifact>) returns (r: Outcome<Reply>, dispatched: bool)
      requires Sound(disk) && GoodReceipts(State()) && IntentFile(id) !in disk.files && GoodArtifact(a, t)
      requires Stored(disk, id, t, a)
      modifies this
      ensures disk.files.Keys <= old(disk).files.Keys + {IntentFile(id), ReceiptFile(id)}
      ensures Called(old(State()), State())
      ensures forall i :: |old(log)| <= i < |log| && log[i].Dispatch? ==> log[i].command.id == id
      ensures !dispatched ==> NoDispatch(log, |old(log)|)
      ensures r.Done? ==> Answers(r.value, Apply, id, old(State()), State())
    {
      dispatched := false;
      ghost var w := State();
      var now :- LastChecks(t, a);
      r, dispatched := Commit(t, id, a, now, pager, w);
    }

    /** Write the intent, and dispatch. */
    method Commit(t: Target, id: string, a: Artifact, now: Times, pager: Pager<Artifact>, ghost w: World)
      returns (r: Outcome<Reply>, dispatched: bool)
      requires Follows(w, State()) && disk == w.disk && IntentFile(id) !in disk.files
      requires GoodArtifact(a, t) && OnTime(a, t, now) && Stored(disk, id, t, a)
      requires |log| == |w.log| + 1 && log[|w.log|].Preflight? && log[|w.log|].target == t
      modifies this
      ensures disk.files.Keys <= old(disk).files.Keys + {IntentFile(id), ReceiptFile(id)}
      ensures Called(w, State()) && w.log <= log
      ensures forall i :: |w.log| <= i < |log| && log[i].Dispatch? ==> log[i].command.id == id
      ensures !dispatched ==> NoDispatch(log, |w.log|)
      ensures r.Done? ==> Answers(r.value, Apply, id, w, State())
    {
      dispatched := false;
      var _ :- Add(IntentFile(id), IntentDoc(Bindings(t, id, a)), w);
      dispatched := true;
      r := Fire(t, id, a, now, pager, w);
    }

    /** Dispatch, with the intent in place, and settle. */
    method Fire(t: Target, id: string, a: Artifact, now: Times, pager: Pager<Artifact>, ghost w: World) returns (r: Outcome<Reply>)
      requires Follows(w, State()) && IntentFile(id) !in w.disk.files && HasIntent(disk, id, Bindings(t, id, a))
      requires GoodArtifact(a, t) && OnTime(a, t, now)
      requires |log| == |w.log| + 1 && log[|w.log|].Preflight? && log[|w.log|].target == t
      requires Stored(w.disk, id, t, a)
      modifies this
      ensures disk.files.Keys <= old(disk).files.Keys + {ReceiptFile(id)}
      ensures Called(w, State()) && w.log <= log
      ensures forall i :: |w.log| <= i < |log| && log[i].Dispatch? ==> log[i].command.id == id
      ensures r.Done? ==> Answers(r.value, Apply, id, w, State())
    {
      ghost var u := State();
      StoredStays(w.disk, disk, id, t, a);
      var c := Bindings(t, id, a);
      var launched := Activate(c, now);
      if !launched.Done? {
        r := launched.PropagateFailure();
        EndOfLaunch(w, u, State(), t, id, a, now);
        return;
      }
      ghost var m := State();
      EndOfLaunch(w, u, m, t, id, a, now);
      r := Settle(t, c, pager);
      LaunchedFollows(w, m, State(), t, id, a, now);
      GrowsIsTransitive(w.disk, m.disk, disk);
      LaunchedIsCalled(w, State(), t, id, a, now);
      if r.Done? {
        ConfirmedAnswers(r.value, c, Apply, w, m, State());
      }
    }

    /** A stored intent must be of the same command. */
    method CheckIntent(c: Command) returns (r: Outcome<()>)
    {
      if IntentFile(c.id) in disk.files {
        var intent :- Read(IntentFile(c.id));
        if intent != IntentDoc(c) {
          return Failed;
        }
      }
      return Done(());
    }

    /** The part of `execute` that finds an intent, or reconciles: it only observes. */
    method Recheck(op: Operation, t: Target, c: Command, pager: Pager<Artifact>) returns (r: Outcome<Reply>)
      requires Sound(disk) && GoodReceipts(State()) && c.vault == t.vault && op != AskStatus
      modifies this
      ensures disk.files.Keys == old(disk).files.Keys
      ensures Follows(old(State()), State())
      ensures r.Done? ==> Answers(r.value, op, c.id, old(State()), State())
    {
      ghost var w := State();
      QuietIsCalled(w, w);
      var _ :- CheckIntent(c);
      var observed := Observe(t, c, pager);
      QuietIsCalled(w, State());
      var reply :- observed;
      ConfirmedAnswers(reply, c, op, w, w, State());
      var _ :- Fault();
      return Done(reply);
    }

    /** `execute`, up to its handling of errors. */
    method Perform(op: Operation, t: Target, id: string, pager: Pager<Artifact>) returns (r: Outcome<Reply>, dispatched: bool)
      requires Sound(disk) && GoodReceipts(State())
      modifies this
      ensures disk.files.Keys <= old(disk).files.Keys + {IntentFile(id), ReceiptFile(id)}
      ensures Called(old(State()), State())
      ensures forall i :: |old(log)| <= i < |log| && log[i].Dispatch? ==> log[i].command.id == id
      ensures op != Apply || IntentFile(id) in old(disk).files || !dispatched ==> NoDispatch(log, |old(log)|)
      ensures dispatched ==> op != AskStatus
      ensures r.Done? ==> Answers(r.value, op, id, old(State()), State())
    {
      dispatched := false;
      ghost var w := State();
      QuietIsCalled(w, w);
      var read :- ReadCommand(t, id);
      var (c, a) := read;
      var now := Clock();
      if now >= t.registrationExpiresAt {
        return Failed, false;
      }
      if op == AskStatus {
        var actual := RunPreflight(t);
        QuietIsCalled(w, State());
        var status :- actual;
        var _ :- Fault();
        return Done(Observed(c, status)), false;
      }
      var _ :- Fault();
      if op == Reconcile || IntentFile(id) in disk.files {
        dispatched := IntentFile(id) in disk.files;
        r := Recheck(op, t, c, pager);
        return;
      }
      r, dispatched := Launch(t, id, a, pager);
    }

    /** `execute`: it ends with an answer unless it is killed. */
    method Execute(op: Operation, t: Target, id: string, pager: Pager<Artifact>) returns (r: Outcome<Reply>)
      requires Sound(disk) && GoodReceipts(State())
      modifies this
      ensures disk.files.Keys <= old(disk).files.Keys + {IntentFile(id), ReceiptFile(id)}
      ensures Called(old(State()), State()) && !r.Failed?
      ensures forall i :: |old(log)| <= i < |log| && log[i].Dispatch? ==> log[i].command.id == id
      ensures op != Apply || IntentFile(id) in old(disk).files ==> NoDispatch(log, |old(log)|)
      ensures r.Done? ==> Answers(r.value, op, id, old(State()), State())
    {
      var dispatched;
      r, dispatched := Perform(op, t, id, pager);
      if r.Failed? {
        r := Done(if dispatched || op == Reconcile then Unknown else Rejected);
      }
    }

    /** One invocation of the tool. */
    method Invoke(op: Operation, t: Target, id: string, pager: Pager<Artifact>) returns (r: Outcome<Reply>, late: bool)
      requires Sound(disk) && GoodReceipts(State())
      modifies this
      ensures Allowed(op, id, old(State()), State()) && !r.Failed?
      ensures r.Done? ==> Prints(r.value, late, op, id, old(State()), State())
    {
      late := *;
      ghost var w := State();
      var ready := Open();
      if !ready.Done? {
        return if ready.Failed? then Done(Rejected) else Killed, late;
      }
      var early := *;
      if late && early {
        return Done(Rejected), late;
      }
      ghost var u := State();
      r := Execute(op, t, id, pager);
      OpenedIsCalled(w, u, State());
      if r.Done? {
        assert Answers(r.value, op, id, w, State());
        r := Done(Printed(r.value, late));
      }
    }
  }

  // ---------------------------------------------------------------- what is printed

  /** The last check of `main`: a finished answer that comes late is printed as rejected. */
  function Printed(reply: Reply, late: bool): Reply {
    if late && reply != Unknown then Rejected else reply
  }

  /** What an invocation may print: that it ended before its call, or what the call answered. */
  ghost predicate Prints(printed: Reply, late: bool, op: Operation, id: string, w: World, v: World) {
    || (printed == Rejected && NoDispatch(v.log, |w.log|))
    || exists reply :: Answers(reply, op, id, w, v) && printed == Printed(reply, late)
  }

  /** What an invocation may do: it dispatches its own command only, and only if it is asked to
      apply it and found no intent. */
  ghost predicate Allowed(op: Operation, id: string, w: World, v: World) {
    && Called(w, v) && (op != Apply || IntentFile(id) in w.disk.files ==> NoDispatch(v.log, |w.log|))
    && forall i :: |w.log| <= i < |v.log| && v.log[i].Dispatch? ==> v.log[i].command.id == id
  }

  /** If the invocation finds an intent or not, as `found` says, then its printed rejection means
      that nothing was dispatched. */
  ghost predicate Honest(late: bool, op: Operation, found: bool, id: string, w: World, v: World) {
    && Allowed(op, id, w, v) && Prints(Rejected, late, op, id, w, v) && (IntentFile(id) in w.disk.files <==> found)
    ==> NoDispatch(v.log, |w.log|)
  }

  lemma OthersAreHonest(late: bool, op: Operation, found: bool, id: string, w: World, v: World)
    requires !late || op != Apply || found
    ensures Honest(late, op, found, id, w, v)
  {
  }

  /** The receipt that a call stores after its dispatch. */
  function ReceiptFor(c: Command, s: Status, row: Row<Artifact>, max: int): Receipt {
    Receipt(true, c, s.tenant, s.policySha, s.activatedAt, Number(0), s.state, row, Number(max))
  }

  /** What a call saw before and after its dispatch. */
  ghost predicate Confirms(log: seq<Event>, t: Target, c: Command, a: Artifact, at: Times, s: Status, row: Row<Artifact>) {
    log == [Preflight(t, s), Dispatch(c, Whole(PolicyDoc(a)), at), Preflight(t, s), Evidence(c, row, 1)]
  }

  lemma ConfirmedDispatchIsCalled(w: World, v: World, t: Target, id: string, a: Artifact, at: Times, s: Status, row: Row<Artifact>)
    requires GoodArtifact(a, t) && OnTime(a, t, at) && OfDay(w.disk, id, 3) && OfDay(v.disk, id, 4) && Grows(w.disk, v.disk)
    requires Stored(w.disk, id, t, a) && HasIntent(v.disk, id, Bindings(t, id, a)) && w.log == []
    requires Confirms(v.log, t, Bindings(t, id, a), a, at, s, row)
    ensures Called(w, v) && IntentFile(id) !in w.disk.files
    ensures forall i :: |w.log| <= i < |v.log| && v.log[i].Dispatch? ==> v.log[i].command.id == id
  {
    DayHasNoReceipts(v, id, 4);
    LaunchedIsCalled(w, v, t, id, a, at);
  }

  lemma ConfirmedDispatchIsApplied(w: World, v: World, t: Target, c: Command, a: Artifact, at: Times, s: Status, row: Row<Artifact>)
    requires w.log == [] && Confirms(v.log, t, c, a, at, s, row)
    requires IsExact(s, c) && s.vault == s.tenant == c.vault && GoodEvidence(row, Number(1), c)
    ensures Answers(Applied(ReceiptFor(c, s, row, 1)), Apply, c.id, w, v)
  {
    assert WitnessedBy(v.log, 2, 3, ReceiptFor(c, s, row, 1));
  }

  /** An artifact, its live status and its audit event. */
  lemma Evident(id: string) returns (t: Target, a: Artifact, s: Status, row: Row<Artifact>)
    ensures GoodArtifact(a, t) && OnTime(a, t, Times(0, 0))
    ensures IsExact(s, Bindings(t, id, a)) && s.vault == s.tenant == t.vault && GoodEvidence(row, Number(1), Bindings(t, id, a))
  {
    a := Artifact(true, "", 1, 1, "");
    t := Target("", "", "", "", "", "", "", 1, 1);
    var zeros := seq(64, i => '0');
    s := Status("", "", true, "", "active", true, "", 1, HashOf(a), 1, Number(0), zeros);
    row := Row(true, Number(1), "policy.activated", "success", ReasonFor(Bindings(t, id, a)), Number(0), zeros[..32]);
  }

  /** Such a call, from an empty history. If it is late, it prints that it was rejected. */
  lemma LateRejection(id: string) returns (w: World, v: World, reply: Reply)
    ensures Allowed(Apply, id, w, v) && IntentFile(id) !in w.disk.files && w.log == [] && DispatchedAt(v.log, 1, id)
    ensures reply.Applied? && Answers(reply, Apply, id, w, v) && Printed(reply, true) == Rejected
  {
    var t, a, s, row := Evident(id);
    var c, at := Bindings(t, id, a), Times(0, 0);
    var days := FirstDay(t, id, a, 4);
    assert DayAt(days, t, id, a, 3) && DayAt(days, t, id, a, 4);
    w := World(days[3], []);
    v := World(days[4], [Preflight(t, s), Dispatch(c, Whole(PolicyDoc(a)), at), Preflight(t, s), Evidence(c, row, 1)]);
    ConfirmedDispatchIsCalled(w, v, t, id, a, at, s, row);
    ConfirmedDispatchIsApplied(w, v, t, c, a, at, s, row);
    reply := Applied(ReceiptFor(c, s, row, 1));
  }

  /** The printed word `rejected` can hide a dispatch exactly when a call that was to apply a
      command, and found no intent, is late. */
  lemma RejectionIsHonestExactly(late: bool, op: Operation, found: bool)
    ensures !late || op != Apply || found <==> forall id, w, v :: Honest(late, op, found, id, w, v)
  {
    if late && op == Apply && !found {
      var w, v, reply := LateRejection("");
      assert !Honest(late, op, found, "", w, v);
    } else {
      forall id, w, v ensures Honest(late, op, found, id, w, v) {
        OthersAreHonest(late, op, found, id, w, v);
      }
    }
  }

  lemma OpenedIsCalled(w: World, u: World, v: World)
    requires Called(w, u) && u.log == w.log && u.disk.files.Keys == w.disk.files.Keys && Called(u, v)
    ensures Called(w, v)
  {
    GrowsIsTransitive(w.disk, u.disk, v.disk);
    forall i | |w.log| <= i < |v.log| && v.log[i].Dispatch? ensures SafeDispatch(w, v, i) {
      assert SafeDispatch(u, v, i);
    }
  }
}
