/** The journal and the S3 store that scripts/rekey-audit-archive.py works on, and what every
    run of `archive` and `legal_hold` keeps. */
module ArchiveStore {
  import opened WriteOnceDirectory

  // ---------------------------------------------------------------- records

  /** A digest, taken to be injective, of an object's bytes. */
  datatype Sum = Sha256(of: string)

  datatype Hold = On | Off

  /** What an archive run is asked for: the target, the batch and the retention. */
  datatype Wanted = Wanted(target: string, sum: Sum, mode: string, until: int, hold: Hold)

  datatype Plan = Plan(wanted: Wanted, operator: string, createdAt: int)

  /** What `observed` returns. */
  datatype Readback = Readback(version: string, mode: string, until: int, hold: Hold, at: int)

  datatype Receipt = Receipt(wanted: Wanted, operator: string, readback: Readback)

  datatype Intent = Intent(status: Hold, operator: string, version: string, before: Readback, createdAt: int)

  datatype HoldReceipt = HoldReceipt(operation: string, status: Hold, operator: string, version: string, before: Readback, after: Readback)

  datatype Name = BatchFile | PlanFile | VersionFile | ReceiptFile | IntentFile(op: string) | HoldReceiptFile(op: string)

  datatype Doc =
    | BatchDoc(payload: string)
    | PlanDoc(plan: Plan)
    | VersionDoc(version: string)
    | ReceiptDoc(receipt: Receipt)
    | IntentDoc(intent: Intent)
    | HoldReceiptDoc(done: HoldReceipt)

  // ---------------------------------------------------------------- the store and the history

  datatype Version = Version(id: string, sum: Sum, mode: string, until: int, hold: Hold)

  datatype Request =
    | PutObject(body: string, ifNoneMatch: bool, mode: string, until: int, hold: Hold)
    | PutHold(op: string, version: string, status: Hold, from: Hold)

  datatype Event =
    | Sent(request: Request)
    | ReadSum(version: string, sum: Sum)
    | ReadRetention(version: string, mode: string, until: int)
    | ReadHold(version: string, hold: Hold)

  /** The journal; the versions of the planned object, oldest first; the requests that were sent
      and may still arrive; what was sent and read; and whether the current call has written the
      batch and not yet the plan. */
  datatype World = World(disk: Disk<Name, Doc>, versions: seq<Version>, pending: set<Request>, log: seq<Event>, midway: bool)

  function PutFor(payload: string, p: Plan): Request {
    PutObject(payload, true, p.wanted.mode, p.wanted.until, p.wanted.hold)
  }

  /** A conditional request finds the object there, or it is stored as a new version. */
  function Arrived(w: World, r: Request, id: string): World {
    var u := w.(pending := w.pending - {r});
    match r
    case PutObject(body, ifNoneMatch, mode, until, hold) =>
      if ifNoneMatch && |w.versions| > 0 then u
      else u.(versions := w.versions + [Version(id, Sha256(body), mode, until, hold)])
    case PutHold(_, version, status, _) => u.(versions := WithHold(w.versions, version, status))
  }

  function WithHold(versions: seq<Version>, id: string, hold: Hold): (r: seq<Version>)
    ensures |r| == |versions|
    ensures forall i :: 0 <= i < |r| ==> r[i] == if versions[i].id == id then versions[i].(hold := hold) else versions[i]
  {
    seq(|versions|, i requires 0 <= i < |versions| => if versions[i].id == id then versions[i].(hold := hold) else versions[i])
  }

  // ---------------------------------------------------------------- what is written and sent

  ghost predicate Seen(log: seq<Event>, n: int, e: Event) {
    0 <= n < |log| && log[n] == e
  }

  /** The version's checksum, then its retention, then its hold were read back as planned. */
  ghost predicate ReadAsPlanned(log: seq<Event>, version: string, t: Wanted) {
    exists i, j, k ::
      && i < j < k && Seen(log, i, ReadSum(version, t.sum)) && Seen(log, j, ReadRetention(version, t.mode, t.until))
      && Seen(log, k, ReadHold(version, t.hold))
  }

  ghost predicate LastRead(log: seq<Event>, version: string, hold: Hold) {
    |log| > 0 && log[|log| - 1] == ReadHold(version, hold)
  }

  ghost predicate MayWrite(w: World, docs: map<Name, Doc>, name: Name, doc: Doc) {
    match name
    case BatchFile => doc.BatchDoc? && docs == map[]
    case PlanFile =>
      doc.PlanDoc? && w.midway && docs.Keys == {BatchFile} && docs[BatchFile].BatchDoc?
      && doc.plan.wanted.sum == Sha256(docs[BatchFile].payload)
    case VersionFile => doc.VersionDoc? && IsPlanned(docs, w.versions, doc.version)
    case ReceiptFile =>
      && doc.ReceiptDoc? && PlanFile in docs && docs[PlanFile].PlanDoc? && doc.receipt.wanted == docs[PlanFile].plan.wanted
      && VersionFile in docs && docs[VersionFile] == VersionDoc(doc.receipt.readback.version)
      && ReadAsPlanned(w.log, doc.receipt.readback.version, doc.receipt.wanted)
      && doc.receipt.readback.mode == doc.receipt.wanted.mode && doc.receipt.readback.until == doc.receipt.wanted.until
      && doc.receipt.readback.hold == doc.receipt.wanted.hold
    case IntentFile(_) => doc.IntentDoc? && LastRead(w.log, doc.intent.version, doc.intent.before.hold)
    case HoldReceiptFile(op) =>
      && doc.HoldReceiptDoc? && IntentFile(op) in docs && docs[IntentFile(op)].IntentDoc?
      && doc.done.operation == op && doc.done.before == docs[IntentFile(op)].intent.before
      && doc.done.status == docs[IntentFile(op)].intent.status == doc.done.after.hold
      && LastRead(w.log, doc.done.version, doc.done.status)
  }

  /** The store's only version has this identifier and the planned checksum. */
  ghost predicate IsPlanned(docs: map<Name, Doc>, versions: seq<Version>, id: string) {
    && PlanFile in docs && docs[PlanFile].PlanDoc?
    && |versions| == 1 && versions[0].id == id && versions[0].sum == docs[PlanFile].plan.wanted.sum
  }

  /** The upload is the planned one; a hold is sent for an intent without a receipt, when the hold
      just read is the one the intent recorded and not the one it wants. */
  ghost predicate MaySend(w: World, docs: map<Name, Doc>, r: Request) {
    match r
    case PutObject(_, _, _, _, _) =>
      && PlanFile in docs && docs[PlanFile].PlanDoc? && BatchFile in docs && docs[BatchFile].BatchDoc?
      && r == PutFor(docs[BatchFile].payload, docs[PlanFile].plan)
    case PutHold(op, version, status, from) =>
      && IntentFile(op) in docs && docs[IntentFile(op)].IntentDoc? && HoldReceiptFile(op) !in docs
      && docs[IntentFile(op)].intent.status == status != from && docs[IntentFile(op)].intent.before.hold == from
      && docs[IntentFile(op)].intent.version == version && LastRead(w.log, version, from)
  }

  // ---------------------------------------------------------------- actions

  datatype Action =
    | Begin                                                   // a call, of a new process
    | Write(name: Name, doc: Doc, temporary: nat, steps: nat) // killed unless all six steps are done
    | PowerLoss(after: Disk<Name, Doc>)
    | ReviewPartials                                          // by the operator, when opening is refused
    | Send(request: Request)
    | Arrive(arriving: Request, id: string)
    | Read(event: Event)
    | OtherHold(version: string, hold: Hold)
    | OtherPut(other: Version)                                // by someone who honours the condition too

  ghost predicate Enabled(w: World, a: Action) {
    match a
    case Begin => true
    case Write(name, doc, _, k) =>
      k <= 6 && Ready(w.disk) && name !in w.disk.files && MayWrite(w, Docs(w.disk), name, doc)
    case PowerLoss(after) => Sound(w.disk) && Crash(w.disk, after)
    case ReviewPartials => true
    case Send(r) => Ready(w.disk) && MaySend(w, Docs(w.disk), r)
    case Arrive(r, _) => r in w.pending
    case Read(Sent(_)) => false
    case Read(ReadSum(v, sum)) => |w.versions| > 0 && w.versions[|w.versions| - 1].id == v && w.versions[|w.versions| - 1].sum == sum
    case Read(ReadRetention(v, mode, until)) => exists i :: 0 <= i < |w.versions| && Retains(w.versions[i], v, mode, until)
    case Read(ReadHold(v, hold)) => exists i :: 0 <= i < |w.versions| && w.versions[i].id == v && w.versions[i].hold == hold
    case OtherHold(_, _) => true
    case OtherPut(_) => |w.versions| == 0
  }

  predicate Retains(x: Version, id: string, mode: string, until: int) {
    x.id == id && x.mode == mode && x.until == until
  }

  function Apply(w: World, a: Action): World
    requires Enabled(w, a)
  {
    match a
    case Begin => w.(midway := false)
    case Write(name, doc, temporary, k) =>
      w.(disk := WriteAt(w.disk, name, doc, temporary, k), midway := name == BatchFile && k == 6)
    case PowerLoss(after) => w.(disk := after, midway := false)
    case ReviewPartials => w.(disk := Review(w.disk), midway := false)
    case Send(r) => w.(pending := w.pending + {r}, log := w.log + [Sent(r)])
    case Arrive(r, id) => Arrived(w, r, id)
    case Read(e) => w.(log := w.log + [e])
    case OtherHold(v, hold) => w.(versions := WithHold(w.versions, v, hold))
    case OtherPut(x) => w.(versions := [x])
  }

  // ---------------------------------------------------------------- the invariant

  ghost predicate IsPut(log: seq<Event>, n: int) {
    0 <= n < |log| && log[n].Sent? && log[n].request.PutObject?
  }

  /** An upload is conditional and carries the bytes of the batch, which is durable, and the
      parameters of the plan, if that is still there. */
  ghost predicate GoodPut(docs: map<Name, Doc>, durable: set<Name>, r: Request) {
    && r.PutObject? && r.ifNoneMatch && BatchFile in durable && BatchFile in docs && docs[BatchFile] == BatchDoc(r.body)
    && (PlanFile in docs ==> docs[PlanFile].PlanDoc? && r == PutFor(r.body, docs[PlanFile].plan))
  }

  ghost predicate GoodPlan(docs: map<Name, Doc>, durable: set<Name>) {
    PlanFile in docs ==>
      && docs[PlanFile].PlanDoc? && BatchFile in docs && BatchFile in durable && docs[BatchFile].BatchDoc?
      && docs[PlanFile].plan.wanted.sum == Sha256(docs[BatchFile].payload)
  }

  ghost predicate GoodVersion(docs: map<Name, Doc>, versions: seq<Version>) {
    VersionFile in docs ==> docs[VersionFile].VersionDoc? && |versions| == 1 && docs[VersionFile].version == versions[0].id
  }

  /** The receipt names the only version, whose checksum and retention are the ones wanted, and
      they and the hold were read back so. */
  ghost predicate GoodReceipt(versions: seq<Version>, log: seq<Event>, r: Receipt) {
    && |versions| == 1 && r.readback.version == versions[0].id && r.wanted.sum == versions[0].sum
    && r.wanted.mode == versions[0].mode && r.wanted.until == versions[0].until
    && ReadAsPlanned(log, r.readback.version, r.wanted)
    && r.readback.mode == r.wanted.mode && r.readback.until == r.wanted.until && r.readback.hold == r.wanted.hold
  }

  ghost predicate GoodReceipts(docs: map<Name, Doc>, versions: seq<Version>, log: seq<Event>) {
    ReceiptFile in docs ==>
      && docs[ReceiptFile].ReceiptDoc? && GoodReceipt(versions, log, docs[ReceiptFile].receipt)
      && (PlanFile in docs ==> docs[PlanFile].PlanDoc? && docs[ReceiptFile].receipt.wanted == docs[PlanFile].plan.wanted)
  }

  /** All uploads are the same. */
  ghost predicate GoodLog(log: seq<Event>) {
    forall m, n :: IsPut(log, m) && IsPut(log, n) ==> log[m] == log[n]
  }

  /** What was read of the only version, apart from its hold, is still so. */
  ghost predicate GoodReads(log: seq<Event>, versions: seq<Version>) {
    forall n :: 0 <= n < |log| ==> GoodRead(log[n], versions)
  }

  predicate GoodRead(e: Event, versions: seq<Version>) {
    match e
    case ReadSum(id, sum) => |versions| == 1 && versions[0].id == id && versions[0].sum == sum
    case ReadRetention(id, mode, until) => |versions| == 1 && Retains(versions[0], id, mode, until)
    case _ => true
  }

  ghost predicate GoodPuts(w: World)
    requires Sound(w.disk)
  {
    && (forall n :: IsPut(w.log, n) ==> GoodPut(Docs(w.disk), w.disk.durable, w.log[n].request) && !w.midway)
    && (forall r :: r in w.pending && r.PutObject? ==> r.ifNoneMatch)
  }

  /** Between batch and plan the journal holds the batch alone, durably. */
  ghost predicate Halfway(w: World)
    requires Sound(w.disk)
  {
    w.midway ==> Ready(w.disk) && Docs(w.disk).Keys == {BatchFile} && BatchFile in w.disk.durable
  }

  ghost predicate Inv(w: World) {
    && Sound(w.disk) && |w.versions| <= 1 && GoodLog(w.log) && GoodReads(w.log, w.versions)
    && GoodPlan(Docs(w.disk), w.disk.durable) && GoodVersion(Docs(w.disk), w.versions)
    && GoodReceipts(Docs(w.disk), w.versions, w.log)
    && GoodPuts(w) && Halfway(w)
  }

  // ---------------------------------------------------------------- each action keeps it

  lemma PlannedIsGood(versions: seq<Version>, log: seq<Event>, r: Receipt)
    requires GoodReads(log, versions) && ReadAsPlanned(log, r.readback.version, r.wanted)
    requires r.readback.mode == r.wanted.mode && r.readback.until == r.wanted.until && r.readback.hold == r.wanted.hold
    ensures GoodReceipt(versions, log, r)
  {
    var i, j, k :|
      && i < j < k && Seen(log, i, ReadSum(r.readback.version, r.wanted.sum))
      && Seen(log, j, ReadRetention(r.readback.version, r.wanted.mode, r.wanted.until))
      && Seen(log, k, ReadHold(r.readback.version, r.wanted.hold));
    assert GoodRead(log[i], versions) && GoodRead(log[j], versions);
  }

  lemma WriteKeepsDocs(w: World, v: World, docs: map<Name, Doc>, name: Name, doc: Doc, more: map<Name, Doc>)
    requires Inv(w) && docs == Docs(w.disk) && name !in docs && MayWrite(w, docs, name, doc) && more == docs[name := doc]
    requires v.versions == w.versions && v.log == w.log && v.pending == w.pending && w.disk.durable <= v.disk.durable
    ensures GoodPlan(more, v.disk.durable) && GoodVersion(more, v.versions) && GoodReceipts(more, v.versions, v.log)
    ensures forall n :: IsPut(w.log, n) ==> GoodPut(more, v.disk.durable, w.log[n].request)
  {
    if name == ReceiptFile {
      PlannedIsGood(w.versions, w.log, doc.receipt);
    }
    forall n | IsPut(w.log, n) ensures GoodPut(more, v.disk.durable, w.log[n].request) {
      assert GoodPut(docs, w.disk.durable, w.log[n].request);
    }
  }

  lemma WriteKeeps(w: World, name: Name, doc: Doc, temporary: nat, k: nat)
    requires Inv(w) && Enabled(w, Write(name, doc, temporary, k))
    ensures Inv(Apply(w, Write(name, doc, temporary, k)))
  {
    var v := Apply(w, Write(name, doc, temporary, k));
    KilledAt(w.disk, name, doc, temporary, k);
    WriteKeepsDocs(w, v, Docs(w.disk), name, doc, Docs(w.disk)[name := doc]);
    forall n | IsPut(v.log, n) ensures GoodPut(Docs(v.disk), v.disk.durable, v.log[n].request) && !v.midway {
      assert IsPut(w.log, n);
      assert GoodPut(Docs(w.disk), w.disk.durable, w.log[n].request);
    }
    if v.midway {
      assert Docs(v.disk).Keys == {BatchFile};
      assert BatchFile in v.disk.files.Keys;
    }
  }

  lemma LossKeeps(w: World, after: Disk<Name, Doc>)
    requires Inv(w) && Enabled(w, PowerLoss(after))
    ensures Inv(Apply(w, PowerLoss(after)))
  {
    CrashDocs(w.disk, after);
    forall n | IsPut(w.log, n) ensures GoodPut(Docs(after), after.durable, w.log[n].request) {
      assert GoodPut(Docs(w.disk), w.disk.durable, w.log[n].request);
    }
  }

  lemma ReviewKeeps(w: World)
    requires Inv(w)
    ensures Inv(Apply(w, ReviewPartials))
  {
    assert Docs(Review(w.disk)) == Docs(w.disk);
    forall n | IsPut(w.log, n) ensures GoodPut(Docs(w.disk), w.disk.durable, w.log[n].request) {
    }
  }

  lemma SendKeeps(w: World, r: Request)
    requires Inv(w) && Enabled(w, Send(r))
    ensures Inv(Apply(w, Send(r)))
  {
    var v := Apply(w, Send(r));
    forall n | IsPut(v.log, n) ensures v.log[n].request.PutObject? && GoodPut(Docs(w.disk), w.disk.durable, v.log[n].request) {
      assert n < |w.log| ==> IsPut(w.log, n) && v.log[n] == w.log[n];
    }
    forall m, n | IsPut(v.log, m) && IsPut(v.log, n) ensures v.log[m] == v.log[n] {
      assert m < |w.log| ==> IsPut(w.log, m);
      assert n < |w.log| ==> IsPut(w.log, n);
    }
    LogKeepsReceipts(w, v.log);
  }

  /** A longer log does not undo what was read. */
  lemma LogKeepsReceipts(w: World, log: seq<Event>)
    requires Sound(w.disk) && GoodReceipts(Docs(w.disk), w.versions, w.log) && w.log <= log
    ensures GoodReceipts(Docs(w.disk), w.versions, log)
  {
    if ReceiptFile in Docs(w.disk) {
      var r := Docs(w.disk)[ReceiptFile].receipt;
      var i, j, k :|
        && i < j < k && Seen(w.log, i, ReadSum(r.readback.version, r.wanted.sum))
        && Seen(w.log, j, ReadRetention(r.readback.version, r.wanted.mode, r.wanted.until))
        && Seen(w.log, k, ReadHold(r.readback.version, r.wanted.hold));
      assert Seen(log, i, w.log[i]) && Seen(log, j, w.log[j]) && Seen(log, k, w.log[k]);
    }
  }

  lemma ReadKeeps(w: World, e: Event)
    requires Inv(w) && Enabled(w, Read(e))
    ensures Inv(Apply(w, Read(e)))
  {
    var v := Apply(w, Read(e));
    forall n | IsPut(v.log, n) ensures IsPut(w.log, n) && v.log[n] == w.log[n] {
    }
    LogKeepsReceipts(w, v.log);
  }

  lemma ArriveKeeps(w: World, r: Request, id: string)
    requires Inv(w) && Enabled(w, Arrive(r, id))
    ensures Inv(Apply(w, Arrive(r, id)))
  {
    VersionsKeep(w, Apply(w, Arrive(r, id)));
  }

  /** Versions may gain the first one, or change a hold. */
  ghost predicate Evolves(before: seq<Version>, after: seq<Version>) {
    && |after| <= 1 && |before| <= |after|
    && (|before| == 1 ==> after[0].(hold := before[0].hold) == before[0])
  }

  lemma VersionsKeep(w: World, v: World)
    requires Inv(w) && Evolves(w.versions, v.versions)
    requires v.disk == w.disk && v.log == w.log && v.pending <= w.pending && v.midway == w.midway
    ensures Inv(v)
  {
    forall n | 0 <= n < |v.log| ensures GoodRead(v.log[n], v.versions) {
      assert GoodRead(w.log[n], w.versions);
    }
  }

  lemma ActionKeeps(w: World, a: Action)
    requires Inv(w) && Enabled(w, a)
    ensures Inv(Apply(w, a))
  {
    match a
    case Begin =>
    case Write(name, doc, temporary, k) => WriteKeeps(w, name, doc, temporary, k);
    case PowerLoss(after) => LossKeeps(w, after);
    case ReviewPartials => ReviewKeeps(w);
    case Send(r) => SendKeeps(w, r);
    case Arrive(r, id) => ArriveKeeps(w, r, id);
    case Read(e) => ReadKeeps(w, e);
    case OtherHold(v, hold) => VersionsKeep(w, Apply(w, a));
    case OtherPut(x) => VersionsKeep(w, Apply(w, a));
  }

  // ---------------------------------------------------------------- every run

  ghost predicate Initial(w: World) {
    w.disk == Disk(map[], {}, map[], {}, {}) && w.versions == [] && w.pending == {} && w.log == [] && !w.midway
  }

  ghost predicate Step(w: World, v: World) {
    exists a :: Enabled(w, a) && v == Apply(w, a)
  }

  ghost predicate StepAt(run: seq<World>, i: int)
    requires 0 <= i < |run| - 1
  {
    Step(run[i], run[i + 1])
  }

  /** Any number of steps: calls, killed at any step, with power losses, lost replies, late
      requests, and others who change holds or put the same object conditionally. */
  ghost predicate Path(run: seq<World>) {
    |run| > 0 && forall i :: 0 <= i < |run| - 1 ==> StepAt(run, i)
  }

  /** A path from an empty journal and an empty store. */
  ghost predicate Run(run: seq<World>) {
    Path(run) && Initial(run[0])
  }

  lemma {:induction false} PathKeeps(run: seq<World>, i: nat)
    requires Path(run) && Inv(run[0]) && i < |run|
    ensures Inv(run[i])
  {
    if i > 0 {
      PathKeeps(run, i - 1);
      assert StepAt(run, i - 1);
      var a :| Enabled(run[i - 1], a) && run[i] == Apply(run[i - 1], a);
      ActionKeeps(run[i - 1], a);
    }
  }

  lemma InitialKeeps(w: World)
    requires Initial(w)
    ensures Inv(w)
  {
  }

  lemma RunKeeps(run: seq<World>, i: nat)
    requires Run(run) && i < |run|
    ensures Inv(run[i])
  {
    InitialKeeps(run[0]);
    PathKeeps(run, i);
  }

  lemma Extend(run: seq<World>, a: Action)
    requires Path(run) && Enabled(run[|run| - 1], a)
    ensures Path(run + [Apply(run[|run| - 1], a)])
  {
    var more := run + [Apply(run[|run| - 1], a)];
    forall i | 0 <= i < |more| - 1 ensures StepAt(more, i) {
      assert i < |run| - 1 ==> StepAt(run, i);
    }
  }

  /** The store never holds more than one version of the object. */
  lemma AtMostOneVersion(run: seq<World>, i: nat)
    requires Run(run) && i < |run|
    ensures |run[i].versions| <= 1
  {
    RunKeeps(run, i);
  }

  /** Every upload of every call is conditional and the same, byte for byte. */
  lemma UploadsAreIdentical(run: seq<World>, i: nat, m: nat, n: nat)
    requires Run(run) && i < |run| && IsPut(run[i].log, m) && IsPut(run[i].log, n)
    ensures run[i].log[m] == run[i].log[n] && run[i].log[m].request.ifNoneMatch
  {
    RunKeeps(run, i);
  }

  /** A durable file of the journal stays, with its contents. */
  ghost predicate Keeps(w: World, v: World) {
    && Sound(w.disk) && Sound(v.disk) && w.disk.durable <= v.disk.durable
    && (forall n :: n in w.disk.durable ==> Docs(v.disk)[n] == Docs(w.disk)[n])
    && Evolves(w.versions, v.versions) && w.log <= v.log
  }

  lemma ActionPersists(w: World, a: Action)
    requires Inv(w) && Enabled(w, a)
    ensures Keeps(w, Apply(w, a))
  {
    ActionKeeps(w, a);
    match a
    case Write(name, doc, temporary, k) => KilledAt(w.disk, name, doc, temporary, k);
    case PowerLoss(after) => CrashDocs(w.disk, after);
    case ReviewPartials => assert Docs(Review(w.disk)) == Docs(w.disk);
    case _ =>
  }

  lemma {:induction false} DurablePersists(run: seq<World>, i: nat, j: nat)
    requires Path(run) && Inv(run[0]) && i <= j < |run|
    ensures Keeps(run[i], run[j])
    decreases j
  {
    PathKeeps(run, i);
    if i < j {
      DurablePersists(run, i, j - 1);
      PathKeeps(run, j - 1);
      assert StepAt(run, j - 1);
      var a :| Enabled(run[j - 1], a) && run[j] == Apply(run[j - 1], a);
      ActionPersists(run[j - 1], a);
    }
  }

  /** Plan, pinned version, receipt, intents: what is durable is never written again. */
  lemma WrittenAtMostOnce(run: seq<World>, i: nat, j: nat, name: Name, doc: Doc, temporary: nat, k: nat)
    requires Run(run) && i <= j < |run| && name in run[i].disk.durable
    ensures !Enabled(run[j], Write(name, doc, temporary, k))
    ensures Keeps(run[i], run[j]) && Docs(run[j].disk)[name] == Docs(run[i].disk)[name]
  {
    DurablePersists(run, i, j);
  }

  ghost predicate Proceeds(w: World, v: World) {
    exists a :: Enabled(w, a) && !a.PowerLoss? && v == Apply(w, a)
  }

  ghost predicate WithoutPowerLoss(run: seq<World>, i: nat, j: nat)
    requires i <= j < |run|
  {
    forall k :: i <= k < j ==> Proceeds(run[k], run[k + 1])
  }

  /** Every file of the journal stays, durable or not. */
  ghost predicate Grows(w: World, v: World) {
    && Sound(w.disk) && Sound(v.disk) && w.disk.files.Keys <= v.disk.files.Keys
    && (forall n :: n in w.disk.files ==> Docs(v.disk)[n] == Docs(w.disk)[n])
  }

  lemma WriteGrows(w: World, name: Name, doc: Doc, temporary: nat, k: nat)
    requires Inv(w) && Enabled(w, Write(name, doc, temporary, k))
    ensures Grows(w, Apply(w, Write(name, doc, temporary, k)))
  {
    KilledAt(w.disk, name, doc, temporary, k);
    Steps(w.disk, name, doc, temporary, k);
  }

  lemma ProceedsGrows(w: World, v: World)
    requires Inv(w) && Proceeds(w, v)
    ensures Inv(v) && Grows(w, v)
  {
    var a :| Enabled(w, a) && !a.PowerLoss? && v == Apply(w, a);
    ActionKeeps(w, a);
    match a
    case Write(name, doc, temporary, k) => WriteGrows(w, name, doc, temporary, k);
    case ReviewPartials => assert Docs(Review(w.disk)) == Docs(w.disk);
    case _ =>
  }

  lemma GrowsIsTransitive(u: World, w: World, v: World)
    requires Grows(u, w) && Grows(w, v)
    ensures Grows(u, v)
  {
  }

  lemma {:induction false} PathGrows(run: seq<World>, i: nat, j: nat)
    requires Path(run) && Inv(run[0]) && i <= j < |run| && WithoutPowerLoss(run, i, j)
    ensures Grows(run[i], run[j])
    decreases j
  {
    PathKeeps(run, j);
    if i < j {
      PathGrows(run, i, j - 1);
      PathKeeps(run, j - 1);
      assert Proceeds(run[j - 1], run[j]);
      ProceedsGrows(run[j - 1], run[j]);
      GrowsIsTransitive(run[i], run[j - 1], run[j]);
    }
  }

  /** Without power loss no file that a call can see is written again, synced or not. */
  lemma VisibleIsWrittenOnce(run: seq<World>, i: nat, j: nat, name: Name, doc: Doc, temporary: nat, k: nat)
    requires Run(run) && i <= j < |run| && WithoutPowerLoss(run, i, j) && name in run[i].disk.files
    ensures !Enabled(run[j], Write(name, doc, temporary, k))
    ensures Grows(run[i], run[j]) && Docs(run[j].disk)[name] == Docs(run[i].disk)[name]
  {
    InitialKeeps(run[0]);
    PathGrows(run, i, j);
  }

  ghost predicate IsPath(run: seq<World>, w: World, v: World) {
    Path(run) && run[0] == w && run[|run| - 1] == v
  }

  ghost predicate Reaches(w: World, v: World) {
    exists run :: IsPath(run, w, v)
  }

  lemma ReachesItself(w: World)
    ensures Reaches(w, w)
  {
    assert IsPath([w], w, w);
  }

  lemma ReachesOn(w: World, u: World, a: Action)
    requires Reaches(w, u) && Enabled(u, a)
    ensures Reaches(w, Apply(u, a))
  {
    var run :| IsPath(run, w, u);
    Extend(run, a);
    assert IsPath(run + [Apply(u, a)], w, Apply(u, a));
  }

  lemma ReachesKeeps(w: World, v: World)
    requires Inv(w) && Reaches(w, v)
    ensures Inv(v) && Keeps(w, v)
  {
    var run :| IsPath(run, w, v);
    PathKeeps(run, |run| - 1);
    DurablePersists(run, 0, |run| - 1);
  }

  /** The file is there in both, with the same contents. */
  ghost predicate Kept(w: World, v: World, name: Name) {
    && Sound(w.disk) && Sound(v.disk) && name in w.disk.files && name in v.disk.files
    && Docs(v.disk)[name] == Docs(w.disk)[name]
  }

  /** A file that a call can see stays as it is, whatever happens, exactly when its name is
      durable. */
  lemma StaysExactly(w: World, name: Name)
    requires Inv(w) && name in w.disk.files
    ensures name in w.disk.durable <==> forall v :: Reaches(w, v) ==> Kept(w, v, name)
  {
    if name in w.disk.durable {
      forall v | Reaches(w, v) ensures Kept(w, v, name) {
        ReachesKeeps(w, v);
      }
    } else {
      var kept := w.disk.files.Keys - {name};
      RewindIsCrash(w.disk, kept);
      ReachesItself(w);
      ReachesOn(w, w, PowerLoss(Rewind(w.disk, kept)));
      assert !Kept(w, Apply(w, PowerLoss(Rewind(w.disk, kept))), name);
    }
  }

  /** The version that any call pins is the same one, even if power loss made it pin it again. */
  lemma PinnedVersionIsFixed(run: seq<World>, i: nat, j: nat)
    requires Run(run) && i <= j < |run|
    requires VersionFile in run[i].disk.files && VersionFile in run[j].disk.files
    ensures Sound(run[i].disk) && Sound(run[j].disk)
    ensures Docs(run[i].disk)[VersionFile] == Docs(run[j].disk)[VersionFile]
  {
    RunKeeps(run, i);
    RunKeeps(run, j);
    DurablePersists(run, i, j);
  }

  /** A receipt names the only version; it, its checksum and its retention are what the receipt
      says and the plan wants, for good, and they and the hold were read back before. */
  lemma ReceiptIsVerified(run: seq<World>, i: nat)
    requires Run(run) && i < |run| && ReceiptFile in run[i].disk.files
    ensures Sound(run[i].disk)
    ensures var doc := Docs(run[i].disk)[ReceiptFile];
            doc.ReceiptDoc? && GoodReceipt(run[i].versions, run[i].log, doc.receipt)
    ensures VersionFile in run[i].disk.files ==>
              Docs(run[i].disk)[VersionFile] == VersionDoc(Docs(run[i].disk)[ReceiptFile].receipt.readback.version)
    ensures PlanFile in run[i].disk.files ==>
              var doc := Docs(run[i].disk)[PlanFile];
              doc.PlanDoc? && doc.plan.wanted == Docs(run[i].disk)[ReceiptFile].receipt.wanted
  {
    RunKeeps(run, i);
  }

  // ---------------------------------------------------------------- capacity

  const MAX_STATE := 128 * 1024 * 1024
  const MAX_RECORD := 65536
  const MAX_ENTRIES := 1000

  /** The check of `Journal.write`. */
  predicate Fits(total: nat, count: nat, length: nat) {
    total + length + MAX_RECORD <= MAX_STATE && count + 2 <= MAX_ENTRIES
  }

  /** The check of `legal_hold` before it writes an intent. */
  predicate Admits(total: nat, count: nat) {
    total + 2 * MAX_RECORD <= MAX_STATE && count + 3 <= MAX_ENTRIES
  }

  /** Whether every admitted intent of this length, and then its receipt, can be written. */
  ghost predicate AlwaysFits(intent: nat, receipt: nat) {
    forall total: nat, count: nat | Admits(total, count) :: Fits(total, count, intent) && Fits(total + intent, count + 1, receipt)
  }

  /** Admission leaves room exactly when the two records are no longer than one may be. */
  lemma AdmissionLeavesRoom(intent: nat, receipt: nat)
    ensures AlwaysFits(intent, receipt) <==> intent + receipt <= MAX_RECORD
  {
    var total, count := MAX_STATE - 2 * MAX_RECORD, 0;
    assert Admits(total, count);
    if AlwaysFits(intent, receipt) {
      assert Fits(total + intent, count + 1, receipt);
    }
  }
}
