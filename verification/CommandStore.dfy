/** The policy command box of one node (scripts/rekey-controlplane.py): its records and files,
    what calls and power loss may do to them, and what every run keeps. */
module CommandStore {
  import opened AuditExport
  import opened AuditSearch

  const MAX_VERSION := 0xFFFF_FFFF_FFFF_FFFF

  // ---------------------------------------------------------------- records

  /** The bytes of a policy artifact. `wellFormed` says that they decode to a bundle with the
      fields and types asked for; `body` stands for the rest of them. */
  datatype Artifact = Artifact(wellFormed: bool, signer: string, version: int, expiresAt: int, body: string)

  /** What the profile says about the node. */
  datatype Target = Target(profileSha: string, customer: string, node: string, vault: string, signer: string, trustSha: string,
                           originSha: string, maxLifetime: int, registrationExpiresAt: int)

  datatype Command = Command(profileSha: string, customer: string, node: string, vault: string, signer: string, trustSha: string,
                             originSha: string, id: string, version: int, bundle: Hash<Artifact>, expiresAt: int)

  /** The answer of `policy status`. */
  datatype Status = Status(vault: string, tenant: string, trustInstalled: bool, trustSha: string, state: string,
                           persisted: bool, signer: string, version: int, bundle: Hash<Artifact>, expiresAt: int,
                           activatedAt: Field, policySha: string)

  datatype Receipt = Receipt(rightShape: bool, command: Command, tenant: string, policySha: string, activatedAt: Field,
                             observedAt: Field, current: string, event: Row<Artifact>, snapshot: Field)

  predicate IsHexDigest(s: string) {
    |s| == 64 && forall i :: 0 <= i < 64 ==> IsHex(s[i])
  }

  /** `artifact` without its time check. */
  predicate GoodArtifact(a: Artifact, t: Target) {
    a.wellFormed && a.signer == t.signer && 0 < a.version <= MAX_VERSION && 0 <= a.expiresAt <= MAX_NUMBER
  }

  /** The time check of `artifact`. */
  predicate InLifetime(a: Artifact, t: Target, now: int) {
    0 < a.expiresAt - now <= t.maxLifetime
  }

  /** When the artifact's lifetime and then the node's registration were last checked. */
  datatype Times = Times(artifact: int, registration: int)

  predicate OnTime(a: Artifact, t: Target, at: Times) {
    0 <= at.artifact && InLifetime(a, t, at.artifact) && at.registration < t.registrationExpiresAt
  }

  /** `bindings`. */
  function Bindings(t: Target, id: string, a: Artifact): Command {
    Command(t.profileSha, t.customer, t.node, t.vault, t.signer, t.trustSha, t.originSha, id, a.version, HashOf(a), a.expiresAt)
  }

  function ReasonFor(c: Command): Reason<Artifact> {
    PolicyActivated(c.version, c.bundle)
  }

  /** The check of `preflight`. */
  predicate IsTarget(s: Status, origin: string, t: Target) {
    s.vault == t.vault && s.tenant == t.vault && s.trustInstalled && s.trustSha == t.trustSha && origin == t.originSha
  }

  /** The exact live match of `observe`. */
  predicate IsExact(s: Status, c: Command) {
    && s.state in {"active", "expired"} && s.persisted && s.signer == c.signer && s.version == c.version
    && s.bundle == c.bundle && s.expiresAt == c.expiresAt && InRange(s.activatedAt) && IsHexDigest(s.policySha)
  }

  predicate GoodEvidence(e: Row<Artifact>, snapshot: Field, c: Command) {
    && InRange(snapshot) && InRange(e.sequence) && 0 < e.sequence.n <= snapshot.n
    && ActivationId(e.eventId) && Matches(e, ReasonFor(c))
  }

  /** What `historical_receipt` demands of a stored receipt. */
  predicate ValidReceipt(r: Receipt, c: Command) {
    && r.rightShape && r.command == c && r.tenant == c.vault && IsHexDigest(r.policySha)
    && InRange(r.activatedAt) && InRange(r.observedAt) && r.current in {"active", "expired"}
    && GoodEvidence(r.event, r.snapshot, c)
  }

  // ---------------------------------------------------------------- the file system

  datatype Dir = Root | Nodes | Node | Commands | Receipts | CommandDir(id: string)

  datatype Path = PolicyFile(id: string) | CommandFile(id: string) | IntentFile(id: string) | ReceiptFile(id: string)

  datatype Doc = PolicyDoc(artifact: Artifact) | CommandDoc(command: Command) | IntentDoc(command: Command) | ReceiptDoc(receipt: Receipt)

  datatype Data = Torn | Whole(doc: Doc)

  /** A file, with whether its contents and its directory entry are synced. */
  datatype File = File(data: Data, synced: bool, named: bool)

  /** The directories below the box's root, with whether each one's entry in its parent is
      synced, and the files. */
  datatype Disk = Disk(dirs: map<Dir, bool>, files: map<Path, File>)

  function Parent(x: Dir): Dir {
    match x
    case Root => Root
    case Nodes => Root
    case Node => Nodes
    case Commands => Node
    case Receipts => Node
    case CommandDir(_) => Commands
  }

  function Holder(p: Path): Dir {
    if p.ReceiptFile? then Receipts else CommandDir(p.id)
  }

  predicate Present(d: Disk, x: Dir) {
    x == Root || x in d.dirs
  }

  /** Entries lie in directories that are there; a command's files are made only after its
      directory's entry was synced. */
  ghost predicate Sound(d: Disk) {
    && Root !in d.dirs
    && (forall x :: x in d.dirs ==> Present(d, Parent(x)))
    && (forall p :: p in d.files ==> Present(d, Holder(p)))
    && (forall p :: p in d.files && !p.ReceiptFile? ==> d.dirs[Holder(p)])
  }

  function MakeDir(d: Disk, x: Dir): Disk {
    d.(dirs := d.dirs[x := false])
  }

  function SyncDir(d: Disk, x: Dir): Disk {
    Disk(map y | y in d.dirs :: d.dirs[y] || Parent(y) == x,
         map p | p in d.files :: d.files[p].(named := d.files[p].named || Holder(p) == x))
  }

  function PutFile(d: Disk, p: Path, f: File): Disk {
    d.(files := d.files[p := f])
  }

  function SyncFile(d: Disk, p: Path): Disk {
    if p in d.files then PutFile(d, p, d.files[p].(synced := true)) else d
  }

  /** `Box.write` after `k` of its steps: create the file, write it, sync it, sync its
      directory. */
  function WriteAt(d: Disk, p: Path, doc: Doc, k: nat): Disk
    requires k <= 4
  {
    match k
    case 0 => d
    case 1 => PutFile(d, p, File(Torn, false, false))
    case 2 => PutFile(WriteAt(d, p, doc, 1), p, File(Whole(doc), false, false))
    case 3 => SyncFile(WriteAt(d, p, doc, 2), p)
    case 4 => SyncDir(WriteAt(d, p, doc, 3), Holder(p))
  }

  /** Nothing goes away or changes; syncs may be added. */
  ghost predicate Grows(d: Disk, e: Disk) {
    && (forall x :: x in d.dirs ==> x in e.dirs && (d.dirs[x] ==> e.dirs[x]))
    && (forall p :: p in d.files ==> p in e.files && Improves(d.files[p], e.files[p]))
  }

  predicate Improves(f: File, g: File) {
    g.data == f.data && (f.synced ==> g.synced) && (f.named ==> g.named)
  }

  lemma GrowsIsTransitive(d: Disk, e: Disk, f: Disk)
    requires Grows(d, e) && Grows(e, f)
    ensures Grows(d, f)
  {
  }

  /** The file of a write after `k` steps. */
  function Written(doc: Doc, k: nat): File {
    File(if k <= 1 then Torn else Whole(doc), k >= 3, k >= 4)
  }

  lemma WroteFile(d: Disk, p: Path, doc: Doc, k: nat)
    requires k <= 4 && p !in d.files
    ensures WriteAt(d, p, doc, k) == if k == 0 then d
                                     else if k <= 3 then PutFile(d, p, Written(doc, k))
                                     else SyncDir(PutFile(d, p, Written(doc, 3)), Holder(p))
  {
    var one, two := WriteAt(d, p, doc, 1), WriteAt(d, p, doc, 2);
    assert two.files == d.files[p := Written(doc, 2)];
    assert SyncFile(two, p).files == d.files[p := Written(doc, 3)];
  }

  lemma PutKeeps(d: Disk, p: Path, f: File)
    requires Sound(d) && p !in d.files && Present(d, Holder(p)) && (p.ReceiptFile? || d.dirs[Holder(p)])
    ensures Sound(PutFile(d, p, f)) && Grows(d, PutFile(d, p, f))
  {
  }

  lemma MakeKeeps(d: Disk, x: Dir)
    requires Sound(d) && x !in d.dirs && x != Root && Present(d, Parent(x))
    ensures Sound(MakeDir(d, x)) && Grows(d, MakeDir(d, x))
  {
  }

  lemma SyncKeeps(d: Disk, x: Dir)
    requires Sound(d)
    ensures Sound(SyncDir(d, x)) && Grows(d, SyncDir(d, x)) && SyncDir(d, x).files.Keys == d.files.Keys
  {
  }

  lemma PutAndSynced(d: Disk, p: Path, doc: Doc)
    requires Sound(d) && p !in d.files && Present(d, Holder(p)) && (p.ReceiptFile? || d.dirs[Holder(p)])
    ensures var e := SyncDir(PutFile(d, p, Written(doc, 3)), Holder(p));
            Sound(e) && Grows(d, e) && e.files.Keys == d.files.Keys + {p} && e.files[p] == Written(doc, 4)
  {
    var put := PutFile(d, p, Written(doc, 3));
    PutKeeps(d, p, Written(doc, 3));
    SyncKeeps(put, Holder(p));
    GrowsIsTransitive(d, put, SyncDir(put, Holder(p)));
  }

  /** A write, complete or not, changes nothing else; complete, the file and its name are synced. */
  lemma Wrote(d: Disk, p: Path, doc: Doc, k: nat)
    requires Sound(d) && k <= 4 && p !in d.files && Present(d, Holder(p)) && (p.ReceiptFile? || d.dirs[Holder(p)])
    ensures var e := WriteAt(d, p, doc, k);
            Sound(e) && Grows(d, e)
            && e.files.Keys == (if k == 0 then d.files.Keys else d.files.Keys + {p})
            && (k > 0 ==> e.files[p] == Written(doc, k))
  {
    WroteFile(d, p, doc, k);
    if 1 <= k <= 3 {
      PutKeeps(d, p, Written(doc, k));
    } else if k == 4 {
      PutAndSynced(d, p, doc);
    }
  }

  // ---------------------------------------------------------------- power loss

  /** The box's directories down to the commands, all with synced entries. */
  predicate Firm(d: Disk) {
    Nodes in d.dirs && d.dirs[Nodes] && Node in d.dirs && d.dirs[Node] && Commands in d.dirs && d.dirs[Commands]
  }

  ghost predicate AllSynced(d: Disk) {
    forall x :: x in d.dirs ==> d.dirs[x]
  }

  predicate Anchored(d: Disk, x: Dir) {
    match x
    case Root => true
    case Nodes => Nodes in d.dirs && d.dirs[Nodes]
    case Node => Nodes in d.dirs && d.dirs[Nodes] && Node in d.dirs && d.dirs[Node]
    case CommandDir(_) => Firm(d) && x in d.dirs && d.dirs[x]
    case Commands => Firm(d)
    case Receipts => Nodes in d.dirs && d.dirs[Nodes] && Node in d.dirs && d.dirs[Node] && x in d.dirs && d.dirs[x]
  }

  /** An entry survives when it and the directories above it were synced, and otherwise may or
      may not; a file that was not synced may be torn. */
  ghost predicate PowerLoss(d: Disk, e: Disk) {
    && Sound(e) && e.dirs.Keys <= d.dirs.Keys && e.files.Keys <= d.files.Keys
    && (forall x :: x in e.dirs ==> e.dirs[x])
    && (forall x :: x in d.dirs && Anchored(d, x) ==> x in e.dirs)
    && (forall p :: p in d.files && d.files[p].named && Anchored(d, Holder(p)) ==> p in e.files)
    && (forall p :: p in e.files ==> Survives(d.files[p], e.files[p]))
  }

  predicate Survives(f: File, g: File) {
    g.synced && g.named && (g.data == f.data || (!f.synced && g.data == Torn))
  }

  // ---------------------------------------------------------------- the history

  /** What the calls of the CLI came to, in order. */
  datatype Event =
    | Preflight(target: Target, status: Status)         // a preflight that succeeded
    | Dispatch(command: Command, file: Data, checkedAt: Times)  // `policy activate` on this file
    | Evidence(command: Command, row: Row<Artifact>, snapshot: int)

  datatype World = World(disk: Disk, log: seq<Event>)

  /** The receipt repeats an exact live match and a matching audit event seen after it. */
  ghost predicate WitnessedBy(log: seq<Event>, i: int, j: int, r: Receipt)
    requires 0 <= i < j < |log|
  {
    && log[i].Preflight? && IsExact(log[i].status, r.command) && log[i].status.vault == r.command.vault
    && r.tenant == log[i].status.tenant && r.policySha == log[i].status.policySha
    && r.activatedAt == log[i].status.activatedAt && r.current == log[i].status.state
    && GoodEvidence(r.event, r.snapshot, r.command) && log[j] == Evidence(r.command, r.event, r.snapshot.n)
  }

  ghost predicate Witnessed(log: seq<Event>, from: nat, r: Receipt) {
    exists i, j :: from <= i < j < |log| && WitnessedBy(log, i, j, r)
  }

  /** Every stored receipt is valid, and was witnessed. */
  ghost predicate GoodReceipts(w: World) {
    forall id :: ReceiptFile(id) in w.disk.files && w.disk.files[ReceiptFile(id)].data.Whole? ==> GoodReceipt(w, id)
  }

  ghost predicate GoodReceipt(w: World, id: string)
    requires ReceiptFile(id) in w.disk.files && w.disk.files[ReceiptFile(id)].data.Whole?
  {
    var doc := w.disk.files[ReceiptFile(id)].data.doc;
    doc.ReceiptDoc? && doc.receipt.command.id == id && ValidReceipt(doc.receipt, doc.receipt.command)
    && Witnessed(w.log, 0, doc.receipt)
  }

  ghost predicate HasIntent(d: Disk, id: string, c: Command) {
    var p := IntentFile(id);
    p in d.files && d.files[p] == File(Whole(IntentDoc(c)), true, true)
  }

  /** The two files of a published command. */
  ghost predicate Stored(d: Disk, id: string, t: Target, a: Artifact) {
    && PolicyFile(id) in d.files && d.files[PolicyFile(id)].data == Whole(PolicyDoc(a))
    && CommandFile(id) in d.files && d.files[CommandFile(id)].data == Whole(CommandDoc(Bindings(t, id, a)))
  }

  lemma StoredStays(d: Disk, e: Disk, id: string, t: Target, a: Artifact)
    requires Stored(d, id, t, a) && Grows(d, e)
    ensures Stored(e, id, t, a)
  {
    assert Improves(d.files[PolicyFile(id)], e.files[PolicyFile(id)]);
    assert Improves(d.files[CommandFile(id)], e.files[CommandFile(id)]);
  }

  /** The dispatch at `i` is the only one of its call, came after a preflight of the command's
      target in that call, found the command stored and no intent when the call began, left one,
      and used the file whose digest the command names, within its lifetime. */
  ghost predicate SafeDispatch(w: World, v: World, i: int)
    requires 0 <= i < |v.log| && v.log[i].Dispatch?
  {
    var e := v.log[i];
    && IntentFile(e.command.id) !in w.disk.files
    && (forall j :: |w.log| <= j < |v.log| && v.log[j].Dispatch? ==> j == i)
    && exists t, a, j ::
         && |w.log| <= j < i && v.log[j].Preflight? && v.log[j].target == t
         && e.file == Whole(PolicyDoc(a)) && GoodArtifact(a, t) && OnTime(a, t, e.checkedAt) && Stored(w.disk, e.command.id, t, a)
         && e.command == Bindings(t, e.command.id, a) && HasIntent(v.disk, e.command.id, e.command)
  }

  /** The files of a command are only ever put into a directory that the same call has made. */
  ghost predicate NewCommands(d: Disk, e: Disk) {
    forall p :: p in e.files && p !in d.files && (p.PolicyFile? || p.CommandFile?) ==> CommandDir(p.id) !in d.dirs
  }

  /** What one call of the tool may do, killed or not. */
  ghost predicate Called(w: World, v: World) {
    && w.log <= v.log && Grows(w.disk, v.disk) && Sound(v.disk) && GoodReceipts(v) && NewCommands(w.disk, v.disk)
    && forall i :: |w.log| <= i < |v.log| && v.log[i].Dispatch? ==> SafeDispatch(w, v, i)
  }

  // ---------------------------------------------------------------- every run

  /** Power is lost at rest, or in the middle of a call that `Called` describes as killed. */
  ghost predicate Step(w: World, v: World) {
    Called(w, v) || (v.log == w.log && PowerLoss(w.disk, v.disk))
  }

  ghost predicate StepAt(run: seq<World>, i: int)
    requires 0 <= i < |run| - 1
  {
    Step(run[i], run[i + 1])
  }

  ghost predicate Steps(run: seq<World>) {
    |run| > 0 && forall i :: 0 <= i < |run| - 1 ==> StepAt(run, i)
  }

  /** A run from an empty box. */
  ghost predicate Run(run: seq<World>) {
    Steps(run) && Sound(run[0].disk) && run[0].disk.files == map[] && run[0].log == []
  }

  /** Power is lost only before the first dispatch or while the box's directories are synced. */
  ghost predicate PowerIsSafe(run: seq<World>) {
    forall i :: 0 <= i < |run| - 1 && !Called(run[i], run[i + 1]) ==> Firm(run[i].disk) || NoDispatch(run[i].log, 0)
  }

  ghost predicate NoDispatch(log: seq<Event>, from: nat) {
    forall i :: from <= i < |log| ==> !log[i].Dispatch?
  }

  /** Every dispatched command has its intent, and no command was dispatched twice. */
  ghost predicate AtMostOnce(w: World) {
    && (forall i :: 0 <= i < |w.log| && w.log[i].Dispatch? ==> exists c :: HasIntent(w.disk, w.log[i].command.id, c))
    && NoRepeats(w.log)
  }

  ghost predicate NoRepeats(log: seq<Event>) {
    forall i, j :: 0 <= i < j < |log| && log[i].Dispatch? && log[j].Dispatch? ==> log[i].command.id != log[j].command.id
  }

  lemma CallKeepsAtMostOnce(w: World, v: World)
    requires AtMostOnce(w) && Called(w, v)
    ensures AtMostOnce(v)
  {
    forall i | 0 <= i < |v.log| && v.log[i].Dispatch? ensures exists c :: HasIntent(v.disk, v.log[i].command.id, c) {
      if i < |w.log| {
        assert w.log[i] == v.log[i];
        var c :| HasIntent(w.disk, w.log[i].command.id, c);
        assert HasIntent(v.disk, v.log[i].command.id, c);
      } else {
        assert SafeDispatch(w, v, i);
      }
    }
    forall i, j | 0 <= i < j < |v.log| && v.log[i].Dispatch? && v.log[j].Dispatch? ensures v.log[i].command.id != v.log[j].command.id {
      assert j >= |w.log| ==> SafeDispatch(w, v, j);
      if i < |w.log| {
        assert w.log[i] == v.log[i] && (j < |w.log| ==> w.log[j] == v.log[j]);
      }
    }
  }

  /** An intent survives power loss exactly when the directories above its command's are synced. */
  lemma IntentSurvives(d: Disk, id: string, c: Command)
    requires Sound(d) && HasIntent(d, id, c)
    ensures Firm(d) <==> forall e :: PowerLoss(d, e) ==> HasIntent(e, id, c)
  {
    if Firm(d) {
      forall e | PowerLoss(d, e) ensures HasIntent(e, id, c) {
        assert Anchored(d, Holder(IntentFile(id)));
      }
    } else {
      var e := Wiped(d);
      assert !HasIntent(e, id, c);
    }
  }

  /** Nothing is left of any command but synced receipts. */
  ghost predicate OnlyReceipts(d: Disk) {
    && Sound(d) && (forall x :: x in d.dirs ==> d.dirs[x] && !x.CommandDir?)
    && (forall p :: p in d.files ==> p.ReceiptFile?)
  }

  /** The power loss in which everything that can go is gone. */
  lemma Wiped(d: Disk) returns (e: Disk)
    requires Sound(d) && !Firm(d)
    ensures PowerLoss(d, e) && OnlyReceipts(e)
  {
    e := Disk(map x | x in d.dirs && x != Root && Anchored(d, x) :: true,
              map p | p in d.files && d.files[p].named && Anchored(d, Holder(p)) :: d.files[p].(synced := true));
  }

  lemma PowerLossKeepsAtMostOnce(w: World, v: World)
    requires AtMostOnce(w) && Sound(w.disk) && v.log == w.log && PowerLoss(w.disk, v.disk)
    requires Firm(w.disk) || NoDispatch(w.log, 0)
    ensures AtMostOnce(v)
  {
    forall i | 0 <= i < |v.log| && v.log[i].Dispatch? ensures exists c :: HasIntent(v.disk, v.log[i].command.id, c) {
      var c :| HasIntent(w.disk, w.log[i].command.id, c);
      IntentSurvives(w.disk, w.log[i].command.id, c);
    }
  }

  lemma {:induction false} RunIsSafe(run: seq<World>, i: nat)
    requires Run(run) && PowerIsSafe(run) && i < |run|
    ensures AtMostOnce(run[i]) && Sound(run[i].disk)
  {
    if i > 0 {
      RunIsSafe(run, i - 1);
      assert StepAt(run, i - 1);
      if Called(run[i - 1], run[i]) {
        CallKeepsAtMostOnce(run[i - 1], run[i]);
      } else {
        PowerLossKeepsAtMostOnce(run[i - 1], run[i]);
      }
    }
  }

  /** Over any run of calls, each of them killed at any step, every command is dispatched at most
      once; also when power is lost any number of times while the box's directories are synced. */
  lemma DispatchedAtMostOnce(run: seq<World>, k: nat, i: nat, j: nat)
    requires Run(run) && PowerIsSafe(run) && k < |run|
    requires i < j < |run[k].log| && run[k].log[i].Dispatch? && run[k].log[j].Dispatch?
    ensures run[k].log[i].command.id != run[k].log[j].command.id
  {
    RunIsSafe(run, k);
  }

  /** The file handed to the dispatch at `i` is the artifact that the command's digest names, for
      a target whose preflight came earlier, and within its lifetime when last checked. */
  ghost predicate Bound(log: seq<Event>, i: int)
    requires 0 <= i < |log| && log[i].Dispatch?
  {
    exists t, a, j ::
      && 0 <= j < i && log[j].Preflight? && log[j].target == t && log[i].file == Whole(PolicyDoc(a))
      && log[i].command == Bindings(t, log[i].command.id, a) && log[i].command.bundle == HashOf(a)
      && GoodArtifact(a, t) && OnTime(a, t, log[i].checkedAt)
  }

  /** Every dispatch of every run is bound, whatever was killed or lost. */
  lemma {:induction false} EveryDispatchIsBound(run: seq<World>, k: nat, i: nat)
    requires Run(run) && k < |run| && i < |run[k].log| && run[k].log[i].Dispatch?
    ensures Bound(run[k].log, i)
  {
    if k > 0 {
      assert StepAt(run, k - 1);
      var w, v := run[k - 1], run[k];
      if i < |w.log| {
        assert v.log[i] == w.log[i];
        EveryDispatchIsBound(run, k - 1, i);
        var t, a, j :|
          && 0 <= j < i && w.log[j].Preflight? && w.log[j].target == t && w.log[i].file == Whole(PolicyDoc(a))
          && w.log[i].command == Bindings(t, w.log[i].command.id, a) && GoodArtifact(a, t) && OnTime(a, t, w.log[i].checkedAt);
        assert v.log[j] == w.log[j];
      } else {
        assert SafeDispatch(w, v, i);
      }
    }
  }

  // ---------------------------------------------------------------- when power loss undoes it

  /** The call has made its preflight, its intent and its dispatch, in this order. */
  ghost predicate Launched(w: World, v: World, t: Target, id: string, a: Artifact, at: Times) {
    && IntentFile(id) !in w.disk.files && Stored(w.disk, id, t, a) && GoodArtifact(a, t) && OnTime(a, t, at)
    && HasIntent(v.disk, id, Bindings(t, id, a))
    && |v.log| >= |w.log| + 2 && v.log[|w.log|].Preflight? && v.log[|w.log|].target == t
    && v.log[|w.log| + 1] == Dispatch(Bindings(t, id, a), Whole(PolicyDoc(a)), at) && NoDispatch(v.log, |w.log| + 2)
  }

  lemma LaunchIsSafe(w: World, v: World, t: Target, id: string, a: Artifact, at: Times)
    requires Launched(w, v, t, id, a, at)
    ensures SafeDispatch(w, v, |w.log| + 1)
  {
    var j := |w.log|;
    assert v.log[j].Preflight? && v.log[j].target == t;
  }

  lemma LaunchedIsCalled(w: World, v: World, t: Target, id: string, a: Artifact, at: Times)
    requires Launched(w, v, t, id, a, at)
    requires w.log <= v.log && Grows(w.disk, v.disk) && Sound(v.disk) && GoodReceipts(v) && NewCommands(w.disk, v.disk)
    ensures Called(w, v) && forall i :: |w.log| <= i < |v.log| && v.log[i].Dispatch? ==> v.log[i].command.id == id
  {
    LaunchIsSafe(w, v, t, id, a, at);
    forall i | |w.log| <= i < |v.log| && v.log[i].Dispatch? ensures i == |w.log| + 1 {
    }
  }

  /** Make a directory and sync its parent. */
  function AddDir(d: Disk, x: Dir): Disk {
    SyncDir(MakeDir(d, x), Parent(x))
  }

  /** The calls of a first day: an opening that is killed between making the first directory and
      syncing it; another opening; the publication; the intent. */
  function NextDisk(d: Disk, t: Target, id: string, a: Artifact, k: nat): Disk {
    if k == 0 then MakeDir(d, Nodes)
    else if k == 1 then AddDir(AddDir(AddDir(d, Node), Commands), Receipts)
    else if k == 2 then
      WriteAt(WriteAt(AddDir(d, CommandDir(id)), PolicyFile(id), PolicyDoc(a), 4), CommandFile(id), CommandDoc(Bindings(t, id, a)), 4)
    else WriteAt(d, IntentFile(id), IntentDoc(Bindings(t, id, a)), 4)
  }

  /** The disk after `k` of them: the first directory stays unsynced throughout. */
  ghost predicate OfDay(d: Disk, id: string, k: nat) {
    && Sound(d) && (k == 0 ==> d.dirs == map[]) && (k >= 1 ==> Nodes in d.dirs && !d.dirs[Nodes])
    && (k == 1 ==> d.dirs.Keys == {Nodes}) && (k == 2 ==> d.dirs.Keys == {Nodes, Node, Commands, Receipts})
    && (k >= 3 ==> CommandDir(id) in d.dirs && d.dirs[CommandDir(id)])
    && d.files.Keys == (if k <= 2 then {} else if k == 3 then {PolicyFile(id), CommandFile(id)}
                        else {PolicyFile(id), CommandFile(id), IntentFile(id)})
  }

  lemma AddDirKeeps(d: Disk, x: Dir)
    requires Sound(d) && x !in d.dirs && x != Root && Present(d, Parent(x))
    ensures var e := AddDir(d, x);
            Sound(e) && Grows(d, e) && e.dirs.Keys == d.dirs.Keys + {x} && e.dirs[x] && e.files.Keys == d.files.Keys
            && (Parent(x) != Root && Nodes in d.dirs && !d.dirs[Nodes] ==> !e.dirs[Nodes])
  {
    var made := MakeDir(d, x);
    MakeKeeps(d, x);
    SyncKeeps(made, Parent(x));
    GrowsIsTransitive(d, made, SyncDir(made, Parent(x)));
  }

  lemma AddFileKeeps(d: Disk, p: Path, doc: Doc)
    requires Sound(d) && !p.ReceiptFile? && p !in d.files && Holder(p) in d.dirs && d.dirs[Holder(p)]
    ensures var e := WriteAt(d, p, doc, 4);
            Sound(e) && Grows(d, e) && e.files.Keys == d.files.Keys + {p} && e.files[p] == File(Whole(doc), true, true)
            && e.dirs == d.dirs
  {
    Wrote(d, p, doc, 4);
    WroteFile(d, p, doc, 4);
  }

  lemma AddTwoKeeps(d: Disk, id: string, policy: Doc, command: Doc)
    requires Sound(d) && CommandDir(id) in d.dirs && d.dirs[CommandDir(id)]
    requires PolicyFile(id) !in d.files && CommandFile(id) !in d.files
    ensures var e := WriteAt(WriteAt(d, PolicyFile(id), policy, 4), CommandFile(id), command, 4);
            Sound(e) && Grows(d, e) && e.files.Keys == d.files.Keys + {PolicyFile(id), CommandFile(id)} && e.dirs == d.dirs
            && e.files[PolicyFile(id)].data == Whole(policy) && e.files[CommandFile(id)].data == Whole(command)
  {
    AddFileKeeps(d, PolicyFile(id), policy);
    var put := WriteAt(d, PolicyFile(id), policy, 4);
    AddFileKeeps(put, CommandFile(id), command);
    var e := WriteAt(put, CommandFile(id), command, 4);
    assert Improves(put.files[PolicyFile(id)], e.files[PolicyFile(id)]);
    GrowsIsTransitive(d, put, e);
  }

  lemma Opening(d: Disk, id: string)
    requires OfDay(d, id, 1)
    ensures var e := AddDir(AddDir(AddDir(d, Node), Commands), Receipts); OfDay(e, id, 2) && Grows(d, e)
  {
    AddDirKeeps(d, Node);
    var one := AddDir(d, Node);
    AddDirKeeps(one, Commands);
    var two := AddDir(one, Commands);
    AddDirKeeps(two, Receipts);
  }

  lemma Publishing(d: Disk, t: Target, id: string, a: Artifact)
    requires OfDay(d, id, 2)
    ensures OfDay(NextDisk(d, t, id, a, 2), id, 3) && Grows(d, NextDisk(d, t, id, a, 2))
    ensures Stored(NextDisk(d, t, id, a, 2), id, t, a)
  {
    AddDirKeeps(d, CommandDir(id));
    AddTwoKeeps(AddDir(d, CommandDir(id)), id, PolicyDoc(a), CommandDoc(Bindings(t, id, a)));
    GrowsIsTransitive(d, AddDir(d, CommandDir(id)), NextDisk(d, t, id, a, 2));
  }

  lemma Intending(d: Disk, t: Target, id: string, a: Artifact)
    requires OfDay(d, id, 3)
    ensures var e := NextDisk(d, t, id, a, 3); OfDay(e, id, 4) && Grows(d, e) && HasIntent(e, id, Bindings(t, id, a))
  {
    AddFileKeeps(d, IntentFile(id), IntentDoc(Bindings(t, id, a)));
  }

  lemma NextOfDay(d: Disk, t: Target, id: string, a: Artifact, k: nat)
    requires k <= 3 && OfDay(d, id, k)
    ensures OfDay(NextDisk(d, t, id, a, k), id, k + 1) && Grows(d, NextDisk(d, t, id, a, k))
    ensures k == 2 ==> Stored(NextDisk(d, t, id, a, k), id, t, a)
    ensures k == 3 ==> HasIntent(NextDisk(d, t, id, a, k), id, Bindings(t, id, a))
  {
    if k == 1 {
      Opening(d, id);
    } else if k == 2 {
      Publishing(d, t, id, a);
    } else if k == 3 {
      Intending(d, t, id, a);
    }
  }

  /** The disks of a first day, one call after the other. */
  ghost predicate IsDay(days: seq<Disk>, t: Target, id: string, a: Artifact, n: nat) {
    && |days| == n + 1 && days[0] == Disk(map[], map[])
    && forall k :: 0 <= k < n ==> days[k + 1] == NextDisk(days[k], t, id, a, k)
  }

  ghost predicate DayAt(days: seq<Disk>, t: Target, id: string, a: Artifact, k: nat)
    requires k < |days|
  {
    && OfDay(days[k], id, k) && (k > 0 ==> Grows(days[k - 1], days[k]))
    && (k == 3 ==> Stored(days[k], id, t, a)) && (k == 4 ==> HasIntent(days[k], id, Bindings(t, id, a)))
  }

  /** What they are like. */
  ghost predicate DayShape(days: seq<Disk>, t: Target, id: string, a: Artifact, n: nat) {
    |days| == n + 1 && forall k :: 0 <= k <= n ==> DayAt(days, t, id, a, k)
  }

  lemma DayAtStays(before: seq<Disk>, last: Disk, t: Target, id: string, a: Artifact, k: nat)
    requires k < |before| && DayAt(before, t, id, a, k)
    ensures DayAt(before + [last], t, id, a, k)
  {
    assert (before + [last])[k] == before[k] && (k > 0 ==> (before + [last])[k - 1] == before[k - 1]);
  }

  lemma DayExtends(before: seq<Disk>, last: Disk, t: Target, id: string, a: Artifact)
    requires |before| > 0 && DayShape(before, t, id, a, |before| - 1) && Grows(before[|before| - 1], last)
    requires OfDay(last, id, |before|) && (|before| == 3 ==> Stored(last, id, t, a))
    requires |before| == 4 ==> HasIntent(last, id, Bindings(t, id, a))
    ensures DayShape(before + [last], t, id, a, |before|)
  {
    forall k | 0 <= k <= |before| ensures DayAt(before + [last], t, id, a, k) {
      if k < |before| {
        DayAtStays(before, last, t, id, a, k);
      }
    }
  }

  lemma {:induction false} FirstDay(t: Target, id: string, a: Artifact, n: nat) returns (days: seq<Disk>)
    requires n <= 4
    ensures IsDay(days, t, id, a, n) && DayShape(days, t, id, a, n)
  {
    if n == 0 {
      days := [Disk(map[], map[])];
    } else {
      var before := FirstDay(t, id, a, n - 1);
      assert DayAt(before, t, id, a, n - 1);
      var last := NextDisk(before[n - 1], t, id, a, n - 1);
      NextOfDay(before[n - 1], t, id, a, n - 1);
      days := before + [last];
      DayExtends(before, last, t, id, a);
    }
  }

  lemma DayIsCalled(w: World, v: World, id: string, k: nat)
    requires k <= 2 && OfDay(w.disk, id, k) && OfDay(v.disk, id, k + 1) && Grows(w.disk, v.disk) && v.log == w.log
    ensures Called(w, v)
  {
    DayHasNoReceipts(v, id, k + 1);
  }

  /** No receipt is stored on that day. */
  lemma DayHasNoReceipts(v: World, id: string, k: nat)
    requires OfDay(v.disk, id, k)
    ensures GoodReceipts(v)
  {
  }

  lemma DayDispatches(w: World, v: World, t: Target, id: string, a: Artifact, s: Status, at: Times)
    requires GoodArtifact(a, t) && OnTime(a, t, at) && HasIntent(v.disk, id, Bindings(t, id, a))
    requires OfDay(w.disk, id, 3) && Stored(w.disk, id, t, a) && OfDay(v.disk, id, 4) && Grows(w.disk, v.disk)
    requires v.log == w.log + [Preflight(t, s), Dispatch(Bindings(t, id, a), Whole(PolicyDoc(a)), at)]
    ensures Called(w, v)
  {
    DayHasNoReceipts(v, id, 4);
    LaunchedIsCalled(w, v, t, id, a, at);
  }

  lemma DayIsLost(w: World, v: World, id: string)
    requires OfDay(w.disk, id, 4) && v == World(Disk(map[], map[]), w.log)
    ensures PowerLoss(w.disk, v.disk) && !Called(w, v) && !Firm(w.disk)
  {
    assert IntentFile(id) in w.disk.files;
  }

  ghost predicate DispatchedAt(log: seq<Event>, i: int, id: string) {
    0 <= i < |log| && log[i].Dispatch? && log[i].command.id == id
  }

  /** The limit of `DispatchedAtMostOnce`: if a kill leaves the first directory unsynced, power
      loss takes the dispatched command's intent with it, and the same calls dispatch again. */
  lemma PowerLossCanRepeat(t: Target, id: string, a: Artifact, s: Status, at: Times) returns (run: seq<World>, days: seq<Disk>)
    requires GoodArtifact(a, t) && OnTime(a, t, at)
    ensures Run(run) && |run| == 10 && !PowerIsSafe(run) && IsDay(days, t, id, a, 4)
    ensures forall i :: 0 <= i < 10 ==> run[i].disk == days[if i < 5 then i else i - 5]
    ensures DispatchedAt(run[9].log, 1, id) && DispatchedAt(run[9].log, 3, id)
  {
    days := FirstDay(t, id, a, 4);
    run := RepeatRun(days, t, id, a, s, at);
  }

  lemma RepeatRun(days: seq<Disk>, t: Target, id: string, a: Artifact, s: Status, at: Times) returns (run: seq<World>)
    requires GoodArtifact(a, t) && OnTime(a, t, at) && DayShape(days, t, id, a, 4) && days[0] == Disk(map[], map[])
    ensures Run(run) && |run| == 10 && !PowerIsSafe(run)
    ensures forall i :: 0 <= i < 10 ==> run[i].disk == days[if i < 5 then i else i - 5]
    ensures DispatchedAt(run[9].log, 1, id) && DispatchedAt(run[9].log, 3, id)
  {
    var launch := [Preflight(t, s), Dispatch(Bindings(t, id, a), Whole(PolicyDoc(a)), at)];
    run := seq(10, i requires 0 <= i < 10 => RepeatAt(days, launch, i));
    forall i | 0 <= i < 9 ensures StepAt(run, i) {
      RepeatStep(days, t, id, a, s, at, i);
    }
    RepeatStep(days, t, id, a, s, at, 4);
    assert !Called(run[4], run[5]) && !Firm(run[4].disk) && run[4].log[1].Dispatch?;
    assert !NoDispatch(run[4].log, 0);
  }

  /** The worlds of two first days, with a power loss between them. */
  function RepeatAt(days: seq<Disk>, launch: seq<Event>, i: nat): World
    requires |days| == 5 && i <= 9
  {
    World(days[if i < 5 then i else i - 5], if i < 4 then [] else if i < 9 then launch else launch + launch)
  }

  /** One call of a first day. */
  lemma DayStep(days: seq<Disk>, t: Target, id: string, a: Artifact, s: Status, at: Times, k: nat, w: World, v: World)
    requires GoodArtifact(a, t) && OnTime(a, t, at) && k < 4 && DayShape(days, t, id, a, 4)
    requires w.disk == days[k] && v.disk == days[k + 1]
    requires v.log == if k == 3 then w.log + [Preflight(t, s), Dispatch(Bindings(t, id, a), Whole(PolicyDoc(a)), at)] else w.log
    ensures Called(w, v)
  {
    assert DayAt(days, t, id, a, k) && DayAt(days, t, id, a, k + 1);
    if k == 3 {
      DayDispatches(w, v, t, id, a, s, at);
    } else {
      DayIsCalled(w, v, id, k);
    }
  }

  lemma RepeatStep(days: seq<Disk>, t: Target, id: string, a: Artifact, s: Status, at: Times, i: nat)
    requires GoodArtifact(a, t) && OnTime(a, t, at) && i < 9 && DayShape(days, t, id, a, 4) && days[0] == Disk(map[], map[])
    ensures var launch := [Preflight(t, s), Dispatch(Bindings(t, id, a), Whole(PolicyDoc(a)), at)];
            var w, v := RepeatAt(days, launch, i), RepeatAt(days, launch, i + 1);
            Step(w, v) && (i == 4 ==> !Called(w, v) && !Firm(w.disk))
  {
    var launch := [Preflight(t, s), Dispatch(Bindings(t, id, a), Whole(PolicyDoc(a)), at)];
    var w, v := RepeatAt(days, launch, i), RepeatAt(days, launch, i + 1);
    if i == 4 {
      assert DayAt(days, t, id, a, 4);
      DayIsLost(w, v, id);
    } else {
      DayStep(days, t, id, a, s, at, if i < 4 then i else i - 5, w, v);
    }
  }

  /** Every receipt that a later call can read was witnessed when it was stored: receipts stay
      good whatever is lost. */
  lemma {:induction false} ReceiptsStayGood(run: seq<World>, i: nat)
    requires Run(run) && i < |run|
    ensures GoodReceipts(run[i])
  {
    if i > 0 {
      ReceiptsStayGood(run, i - 1);
      assert StepAt(run, i - 1);
      var w, v := run[i - 1], run[i];
      if !Called(w, v) {
        forall id | ReceiptFile(id) in v.disk.files && v.disk.files[ReceiptFile(id)].data.Whole? ensures GoodReceipt(v, id) {
          assert Survives(w.disk.files[ReceiptFile(id)], v.disk.files[ReceiptFile(id)]);
          assert GoodReceipt(w, id);
        }
      }
    }
  }
}
