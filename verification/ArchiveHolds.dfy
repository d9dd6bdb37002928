/** What every run of `legal_hold` in scripts/rekey-audit-archive.py keeps, when an operation's
    intent and receipt can be relied on, and how long a hold stands. */
module ArchiveHolds {
  import opened ArchiveStore
  import opened WriteOnceDirectory

  // ---------------------------------------------------------------- every hold has its intent

  ghost predicate IsHold(log: seq<Event>, n: int) {
    0 <= n < |log| && log[n].Sent? && log[n].request.PutHold?
  }

  /** The request is the one that this intent asks for. */
  predicate Wants(i: Intent, r: Request) {
    r.PutHold? && r.version == i.version && r.status == i.status && r.from == i.before.hold
  }

  /** The journal holds that intent, and no receipt, and the last thing read of the version is the
      hold that the intent recorded, which is not the one it wants. */
  ghost predicate FollowsIntent(w: World, r: Request)
    requires r.PutHold?
  {
    && Sound(w.disk) && IntentFile(r.op) in w.disk.files && HoldReceiptFile(r.op) !in w.disk.files
    && Docs(w.disk)[IntentFile(r.op)].IntentDoc? && Wants(Docs(w.disk)[IntentFile(r.op)].intent, r)
    && LastRead(w.log, r.version, r.from) && r.from != r.status
  }

  lemma HoldIsSent(w: World, a: Action, n: nat)
    requires Enabled(w, a) && |w.log| <= n && IsHold(Apply(w, a).log, n)
    ensures Apply(w, a).log[..n] == w.log && FollowsIntent(w, Apply(w, a).log[n].request)
  {
    assert a == Send(Apply(w, a).log[n].request);
  }

  /** Every hold of a path was sent by a call that saw its intent and had just read the hold that
      the intent recorded: `m` is the moment before. */
  lemma {:induction false} HoldOnPath(run: seq<World>, i: nat, n: nat) returns (m: nat)
    requires Path(run) && Inv(run[0]) && i < |run| && |run[0].log| <= n && IsHold(run[i].log, n)
    ensures m < i && run[m].log == run[i].log[..n] && n < |run[m + 1].log|
    ensures FollowsIntent(run[m], run[i].log[n].request)
  {
    assert i > 0;
    var w, v := run[i - 1], run[i];
    PathKeeps(run, i - 1);
    assert StepAt(run, i - 1);
    var a :| Enabled(w, a) && v == Apply(w, a);
    ActionPersists(w, a);
    if n < |w.log| {
      assert w.log[n] == v.log[n] && v.log[..n] == w.log[..n];
      m := HoldOnPath(run, i - 1, n);
    } else {
      HoldIsSent(w, a, n);
      m := i - 1;
    }
  }

  /** So was every hold of every run. */
  lemma EveryHoldIsJustified(run: seq<World>, i: nat, n: nat) returns (m: nat)
    requires Run(run) && i < |run| && IsHold(run[i].log, n)
    ensures m < i && run[m].log == run[i].log[..n] && n < |run[m + 1].log|
    ensures FollowsIntent(run[m], run[i].log[n].request)
  {
    InitialKeeps(run[0]);
    m := HoldOnPath(run, i, n);
  }

  // ---------------------------------------------------------------- one intent, one change

  /** The hold asks for what the intent at `w` wants, right after a read of what it recorded. */
  ghost predicate Carries(w: World, log: seq<Event>, n: int, op: string)
    requires Sound(w.disk) && IntentFile(op) in w.disk.files && IsHold(log, n)
  {
    var doc := Docs(w.disk)[IntentFile(op)];
    && doc.IntentDoc? && Wants(doc.intent, log[n].request) && doc.intent.before.hold != doc.intent.status
    && n > 0 && log[n - 1] == ReadHold(doc.intent.version, doc.intent.before.hold)
  }

  /** The moment a hold was sent after `i` is not before `i`. */
  lemma SentSince(run: seq<World>, i: nat, j: nat, n: nat) returns (m: nat)
    requires Path(run) && Inv(run[0]) && i <= j < |run| && |run[i].log| <= n && IsHold(run[j].log, n)
    ensures i <= m < j && run[m].log == run[j].log[..n] && FollowsIntent(run[m], run[j].log[n].request)
  {
    DurablePersists(run, 0, i);
    m := HoldOnPath(run, j, n);
    if m < i {
      DurablePersists(run, m + 1, i);
    }
  }

  lemma SameIntentCarries(w: World, u: World, log: seq<Event>, n: nat, op: string)
    requires Sound(w.disk) && IntentFile(op) in w.disk.files && Sound(u.disk) && IntentFile(op) in u.disk.files
    requires Docs(u.disk)[IntentFile(op)] == Docs(w.disk)[IntentFile(op)]
    requires IsHold(log, n) && u.log == log[..n] && log[n].request.op == op && FollowsIntent(u, log[n].request)
    ensures Carries(w, log, n, op)
  {
    assert u.log[n - 1] == log[n - 1];
  }

  /** A durable intent fixes every hold that its operation sends from then on: the version, the
      status wanted and the hold recorded, which was read right before. Once its receipt is
      durable the operation sends none. */
  lemma HoldsFollowTheIntent(run: seq<World>, i: nat, j: nat, op: string, n: nat)
    requires Run(run) && i <= j < |run| && IntentFile(op) in run[i].disk.durable
    requires |run[i].log| <= n && IsHold(run[j].log, n) && run[j].log[n].request.op == op
    ensures Sound(run[i].disk) && HoldReceiptFile(op) !in run[i].disk.durable && Carries(run[i], run[j].log, n, op)
  {
    InitialKeeps(run[0]);
    var m := SentSince(run, i, j, n);
    DurablePersists(run, i, m);
    SameIntentCarries(run[i], run[m], run[j].log, n, op);
  }

  /** Without power loss an intent that a call can see does so, synced or not, and a receipt that
      a call can see ends the operation. */
  lemma HoldsFollowAVisibleIntent(run: seq<World>, i: nat, j: nat, op: string, n: nat)
    requires Run(run) && i <= j < |run| && WithoutPowerLoss(run, i, j) && IntentFile(op) in run[i].disk.files
    requires |run[i].log| <= n && IsHold(run[j].log, n) && run[j].log[n].request.op == op
    ensures Sound(run[i].disk) && HoldReceiptFile(op) !in run[i].disk.files && Carries(run[i], run[j].log, n, op)
  {
    InitialKeeps(run[0]);
    var m := SentSince(run, i, j, n);
    PathGrows(run, i, m);
    SameIntentCarries(run[i], run[m], run[j].log, n, op);
  }

  // ---------------------------------------------------------------- the steps of an operation

  function Flip(hold: Hold): Hold {
    if hold == On then Off else On
  }

  /** The state of an object with one version, in a journal that is open. */
  ghost predicate Holding(w: World, x: Version) {
    Inv(w) && Ready(w.disk) && w.versions == [x]
  }

  function IntentFor(x: Version, status: Hold): Intent {
    Intent(status, "", x.id, Readback(x.id, x.mode, x.until, x.hold, 0), 0)
  }

  function ReceiptFor(op: string, x: Version, i: Intent): HoldReceipt {
    HoldReceipt(op, i.status, "", x.id, i.before, Readback(x.id, x.mode, x.until, x.hold, 0))
  }

  lemma ReadsHold(w: World, u: World, x: Version) returns (v: World)
    requires Reaches(w, u) && Holding(u, x)
    ensures Reaches(w, v) && Holding(v, x) && v == u.(log := u.log + [ReadHold(x.id, x.hold)])
  {
    var a := Read(ReadHold(x.id, x.hold));
    assert u.versions[0].id == x.id && u.versions[0].hold == x.hold;
    v := Apply(u, a);
    ReachesOn(w, u, a);
    ActionKeeps(u, a);
  }

  /** A write, killed before its directory sync or not. */
  lemma Records(w: World, u: World, x: Version, name: Name, doc: Doc, synced: bool) returns (v: World)
    requires Reaches(w, u) && Holding(u, x) && name !in u.disk.files && name != BatchFile && MayWrite(u, Docs(u.disk), name, doc)
    ensures Reaches(w, v) && Holding(v, x) && v.log == u.log && v.pending == u.pending
    ensures Docs(v.disk) == Docs(u.disk)[name := doc] && v.disk.files.Keys == u.disk.files.Keys + {name}
    ensures if synced then Settled(v.disk) else v.disk.durable == u.disk.durable
  {
    var k := if synced then 6 else 5;
    var a := Write(name, doc, 0, k);
    v := Apply(u, a);
    ReachesOn(w, u, a);
    ActionKeeps(u, a);
    KilledAt(u.disk, name, doc, 0, k);
    Steps(u.disk, name, doc, 0, k);
    assert Docs(v.disk).Keys == v.disk.files.Keys;
  }

  /** Read the hold and record an intent to change it or to confirm it. */
  lemma Intends(w: World, u: World, x: Version, op: string, status: Hold, synced: bool) returns (v: World)
    requires Reaches(w, u) && Holding(u, x) && IntentFile(op) !in u.disk.files
    ensures Reaches(w, v) && Holding(v, x) && v.log == u.log + [ReadHold(x.id, x.hold)] && v.pending == u.pending
    ensures Docs(v.disk) == Docs(u.disk)[IntentFile(op) := IntentDoc(IntentFor(x, status))]
    ensures v.disk.files.Keys == u.disk.files.Keys + {IntentFile(op)}
    ensures if synced then Settled(v.disk) else v.disk.durable == u.disk.durable
  {
    var seen := ReadsHold(w, u, x);
    v := Records(w, seen, x, IntentFile(op), IntentDoc(IntentFor(x, status)), synced);
  }

  /** Send the change. */
  lemma Sends(w: World, u: World, x: Version, op: string, status: Hold) returns (v: World)
    requires Reaches(w, u) && Holding(u, x) && LastRead(u.log, x.id, x.hold) && x.hold != status
    requires IntentFile(op) in u.disk.files && Docs(u.disk)[IntentFile(op)] == IntentDoc(IntentFor(x, status))
    requires HoldReceiptFile(op) !in u.disk.files
    ensures Reaches(w, v) && Holding(v, x)
    ensures var r := PutHold(op, x.id, status, x.hold);
            v == u.(pending := u.pending + {r}, log := u.log + [Sent(r)])
  {
    var a := Send(PutHold(op, x.id, status, x.hold));
    v := Apply(u, a);
    ReachesOn(w, u, a);
    ActionKeeps(u, a);
  }

  lemma Arrives(w: World, u: World, x: Version, op: string, status: Hold, from: Hold) returns (v: World, y: Version)
    requires Reaches(w, u) && Holding(u, x) && PutHold(op, x.id, status, from) in u.pending
    ensures Reaches(w, v) && Holding(v, y) && y == x.(hold := status) && v.disk == u.disk && v.log == u.log
  {
    var a := Arrive(PutHold(op, x.id, status, from), "");
    v, y := Apply(u, a), x.(hold := status);
    ReachesOn(w, u, a);
    ActionKeeps(u, a);
    assert v.versions == [y];
  }

  /** Read the hold back as wanted, and record the receipt. */
  lemma Concludes(w: World, u: World, x: Version, op: string, i: Intent, synced: bool) returns (v: World)
    requires Reaches(w, u) && Holding(u, x) && x.hold == i.status && HoldReceiptFile(op) !in u.disk.files
    requires IntentFile(op) in u.disk.files && Docs(u.disk)[IntentFile(op)] == IntentDoc(i)
    ensures Reaches(w, v) && Holding(v, x) && u.log <= v.log && v.pending == u.pending
    ensures Docs(v.disk) == Docs(u.disk)[HoldReceiptFile(op) := HoldReceiptDoc(ReceiptFor(op, x, i))]
    ensures v.disk.files.Keys == u.disk.files.Keys + {HoldReceiptFile(op)}
    ensures if synced then Settled(v.disk) else v.disk.durable == u.disk.durable
  {
    var seen := ReadsHold(w, u, x);
    v := Records(w, seen, x, HoldReceiptFile(op), HoldReceiptDoc(ReceiptFor(op, x, i)), synced);
  }

  /** Power loss takes an operation's two names, if neither is durable. */
  lemma Forgets(w: World, u: World, op: string) returns (v: World)
    requires Reaches(w, u) && Inv(u) && IntentFile(op) !in u.disk.durable && HoldReceiptFile(op) !in u.disk.durable
    ensures Reaches(w, v) && Inv(v) && Ready(v.disk) && v.versions == u.versions && v.log == u.log
    ensures IntentFile(op) !in v.disk.files && HoldReceiptFile(op) !in v.disk.files
  {
    var kept := u.disk.files.Keys - {IntentFile(op), HoldReceiptFile(op)};
    RewindIsCrash(u.disk, kept);
    var a := PowerLoss(Rewind(u.disk, kept));
    var lost := Apply(u, a);
    ReachesOn(w, u, a);
    ActionKeeps(u, a);
    v := Apply(lost, ReviewPartials);
    ReachesOn(w, lost, ReviewPartials);
    ActionKeeps(lost, ReviewPartials);
  }

  // ---------------------------------------------------------------- what power loss undoes

  ghost predicate HasReceipt(w: World, op: string, status: Hold) {
    && Sound(w.disk) && HoldReceiptFile(op) in w.disk.files
    && Docs(w.disk)[HoldReceiptFile(op)].HoldReceiptDoc? && Docs(w.disk)[HoldReceiptFile(op)].done.status == status
  }

  ghost predicate SentHold(log: seq<Event>, n: int, op: string, status: Hold) {
    IsHold(log, n) && log[n].request.op == op && log[n].request.status == status
  }

  /** An operation from beginning to end, whose writes are killed before their directory sync or
      not. */
  lemma Changes(w: World, u: World, x: Version, op: string, synced: bool) returns (v: World)
    requires Reaches(w, u) && Holding(u, x) && IntentFile(op) !in u.disk.files && HoldReceiptFile(op) !in u.disk.files
    ensures Reaches(w, v) && Holding(v, x.(hold := Flip(x.hold))) && HasReceipt(v, op, Flip(x.hold))
    ensures IntentFile(op) in v.disk.files && Docs(v.disk)[IntentFile(op)] == IntentDoc(IntentFor(x, Flip(x.hold)))
    ensures u.log <= v.log && SentHold(v.log, |u.log| + 1, op, Flip(x.hold))
    ensures !synced ==> v.disk.durable == u.disk.durable
  {
    var status := Flip(x.hold);
    var intended := Intends(w, u, x, op, status, synced);
    var sent := Sends(w, intended, x, op, status);
    var arrived, y := Arrives(w, sent, x, op, status, x.hold);
    v := Concludes(w, arrived, y, op, IntentFor(x, status), synced);
  }

  /** The limit of `HoldsFollowTheIntent` and of `WrittenAtMostOnce`. If an operation's two writes
      are killed before their directory syncs, later calls go by them; power loss then takes both
      names, and the same operation is carried out again, with the other status. */
  lemma OperationCanRunTwice(w: World, x: Version, op: string) returns (u: World, v: World)
    requires Holding(w, x) && IntentFile(op) !in w.disk.files && HoldReceiptFile(op) !in w.disk.files
    ensures Reaches(w, u) && HasReceipt(u, op, Flip(x.hold)) && SentHold(u.log, |w.log| + 1, op, Flip(x.hold))
    ensures Reaches(u, v) && HasReceipt(v, op, x.hold) && u.log <= v.log && SentHold(v.log, |u.log| + 1, op, x.hold)
  {
    ReachesItself(w);
    NotDurable(w.disk, op);
    u := Changes(w, w, x, op, false);
    ReachesItself(u);
    var lost := Forgets(u, u, op);
    v := Changes(u, lost, x.(hold := Flip(x.hold)), op, true);
  }

  lemma NotDurable(d: Disk<Name, Doc>, op: string)
    requires Sound(d) && IntentFile(op) !in d.files && HoldReceiptFile(op) !in d.files
    ensures IntentFile(op) !in d.durable && HoldReceiptFile(op) !in d.durable
  {
  }

  /** Every hold of the operation that is sent after `w` carries the intent that is there at `w`. */
  ghost predicate Bound(w: World, v: World, op: string)
    requires Sound(w.disk) && IntentFile(op) in w.disk.files
  {
    Reaches(w, v) ==> forall n :: BoundAt(w, v, op, n)
  }

  ghost predicate BoundAt(w: World, v: World, op: string, n: int)
    requires Sound(w.disk) && IntentFile(op) in w.disk.files
  {
    |w.log| <= n && IsHold(v.log, n) && v.log[n].request.op == op ==> Carries(w, v.log, n, op)
  }

  lemma DurableIsBound(w: World, v: World, op: string, n: nat)
    requires Inv(w) && Reaches(w, v) && IntentFile(op) in w.disk.files
    requires IntentFile(op) in w.disk.durable || HoldReceiptFile(op) in w.disk.durable
    requires |w.log| <= n && IsHold(v.log, n) && v.log[n].request.op == op
    ensures Carries(w, v.log, n, op)
  {
    var run :| IsPath(run, w, v);
    var m := SentSince(run, 0, |run| - 1, n);
    DurablePersists(run, 0, m);
    assert HoldReceiptFile(op) !in w.disk.durable;
    SameIntentCarries(w, run[m], v.log, n, op);
  }

  /** Otherwise the operation can come to send the opposite of what that intent wants. */
  lemma UnboundIntent(w: World, op: string) returns (v: World, n: nat)
    requires Inv(w) && IntentFile(op) in w.disk.files
    requires IntentFile(op) !in w.disk.durable && HoldReceiptFile(op) !in w.disk.durable
    ensures Reaches(w, v) && !BoundAt(w, v, op, n)
  {
    var doc := Docs(w.disk)[IntentFile(op)];
    var status := if doc.IntentDoc? then doc.intent.status else On;
    ReachesItself(w);
    var lost := Forgets(w, w, op);
    var ready, x := SomeVersion(w, lost, status);
    v := Intends(w, ready, x, op, Flip(status), true);
    v := Sends(w, v, x, op, Flip(status));
    n := |ready.log| + 1;
    assert v.log[n] == Sent(PutHold(op, x.id, Flip(status), status));
  }

  /** Someone else puts the object if there is none, and sets its hold. */
  lemma SomeVersion(w: World, u: World, hold: Hold) returns (v: World, x: Version)
    requires Reaches(w, u) && Inv(u) && Ready(u.disk)
    ensures Reaches(w, v) && Holding(v, x) && x.hold == hold && v.disk == u.disk && v.log == u.log
  {
    v := u;
    if |u.versions| == 0 {
      var a := OtherPut(Version("", Sha256(""), "", 0, hold));
      v := Apply(u, a);
      ReachesOn(w, u, a);
      ActionKeeps(u, a);
    }
    var b := OtherHold(v.versions[0].id, hold);
    x := v.versions[0].(hold := hold);
    ReachesOn(w, v, b);
    ActionKeeps(v, b);
    v := Apply(v, b);
    assert v.versions == [x];
  }

  /** Exactly when an intent that a call can see binds every later hold of its operation: when its
      name is durable, or that of the operation's receipt, after which there is none. */
  lemma IntentBindsExactly(w: World, op: string)
    requires Inv(w) && IntentFile(op) in w.disk.files
    ensures IntentFile(op) in w.disk.durable || HoldReceiptFile(op) in w.disk.durable <==> forall v :: Bound(w, v, op)
  {
    if IntentFile(op) in w.disk.durable || HoldReceiptFile(op) in w.disk.durable {
      forall v ensures Bound(w, v, op) {
        if Reaches(w, v) {
          forall n ensures BoundAt(w, v, op, n) {
            if |w.log| <= n && IsHold(v.log, n) && v.log[n].request.op == op {
              DurableIsBound(w, v, op, n);
            }
          }
        }
      }
    } else {
      var v, n := UnboundIntent(w, op);
      assert !Bound(w, v, op);
    }
  }

  // ---------------------------------------------------------------- an intent and its receipt

  /** The operation's receipt, if there is one beside an intent, has the intent's status. */
  ghost predicate Agrees(w: World, op: string)
    requires Sound(w.disk)
  {
    IntentFile(op) in w.disk.files && HoldReceiptFile(op) in w.disk.files ==>
      var intent, receipt := Docs(w.disk)[IntentFile(op)], Docs(w.disk)[HoldReceiptFile(op)];
      intent.IntentDoc? && receipt.HoldReceiptDoc? && receipt.done.status == intent.intent.status
  }

  ghost predicate AgreesLater(w: World, v: World, op: string) {
    Reaches(w, v) ==> Sound(v.disk) && Agrees(v, op)
  }

  /** While the intent is there for good, a receipt is only written to agree with it. */
  lemma ActionAgrees(w: World, a: Action, op: string)
    requires Inv(w) && Enabled(w, a) && IntentFile(op) in w.disk.durable && Agrees(w, op)
    ensures Sound(Apply(w, a).disk) && Agrees(Apply(w, a), op)
  {
    match a
    case Write(name, doc, temporary, k) =>
      KilledAt(w.disk, name, doc, temporary, k);
      Steps(w.disk, name, doc, temporary, k);
    case PowerLoss(after) => CrashDocs(w.disk, after);
    case ReviewPartials => assert Docs(Review(w.disk)) == Docs(w.disk);
    case _ =>
  }

  lemma {:induction false} PathAgrees(run: seq<World>, i: nat, op: string)
    requires Path(run) && Inv(run[0]) && i < |run| && IntentFile(op) in run[0].disk.durable && Agrees(run[0], op)
    ensures Sound(run[i].disk) && Agrees(run[i], op)
  {
    if i > 0 {
      PathAgrees(run, i - 1, op);
      PathKeeps(run, i - 1);
      DurablePersists(run, 0, i - 1);
      assert StepAt(run, i - 1);
      var a :| Enabled(run[i - 1], a) && run[i] == Apply(run[i - 1], a);
      ActionAgrees(run[i - 1], a, op);
    }
  }

  /** Power loss takes the intent alone, and a later call records another. */
  lemma IntentReplaced(w: World, op: string) returns (v: World)
    requires Inv(w) && IntentFile(op) in w.disk.files && HoldReceiptFile(op) in w.disk.files
    requires IntentFile(op) !in w.disk.durable && Agrees(w, op)
    ensures Reaches(w, v) && Inv(v) && Settled(v.disk) && !Agrees(v, op)
    ensures HoldReceiptFile(op) in v.disk.files && Docs(v.disk)[HoldReceiptFile(op)] == Docs(w.disk)[HoldReceiptFile(op)]
    ensures IntentFile(op) in v.disk.files && Docs(v.disk)[IntentFile(op)].IntentDoc?
  {
    var status := Docs(w.disk)[IntentFile(op)].intent.status;
    var kept := w.disk.files.Keys - {IntentFile(op)};
    RewindIsCrash(w.disk, kept);
    ReachesItself(w);
    var a := PowerLoss(Rewind(w.disk, kept));
    var u := Apply(w, a);
    ReachesOn(w, w, a);
    ActionKeeps(w, a);
    ReachesOn(w, u, ReviewPartials);
    ActionKeeps(u, ReviewPartials);
    u := Apply(u, ReviewPartials);
    var ready, x := SomeVersion(w, u, status);
    v := Intends(w, ready, x, op, Flip(status), true);
    assert HoldReceiptFile(op) in Docs(v.disk);
  }

  /** An operation's receipt and intent go on to agree, whatever happens, exactly when the intent's
      name is durable. Otherwise a finished operation can come to return the receipt of the other
      status. */
  lemma AgreeExactly(w: World, op: string)
    requires Inv(w) && IntentFile(op) in w.disk.files && HoldReceiptFile(op) in w.disk.files && Agrees(w, op)
    ensures IntentFile(op) in w.disk.durable <==> forall v :: AgreesLater(w, v, op)
  {
    if IntentFile(op) in w.disk.durable {
      forall v ensures AgreesLater(w, v, op) {
        if Reaches(w, v) {
          var run :| IsPath(run, w, v);
          PathAgrees(run, |run| - 1, op);
        }
      }
    } else {
      var v := IntentReplaced(w, op);
      assert !AgreesLater(w, v, op);
    }
  }

  /** It does, if the two writes were killed before their directory syncs. */
  lemma ReceiptCanDisagree(w: World, x: Version, op: string) returns (u: World, v: World)
    requires Holding(w, x) && IntentFile(op) !in w.disk.files && HoldReceiptFile(op) !in w.disk.files
    ensures Reaches(w, u) && HasReceipt(u, op, Flip(x.hold)) && Agrees(u, op)
    ensures Reaches(u, v) && Settled(v.disk) && HasReceipt(v, op, Flip(x.hold)) && IntentFile(op) in v.disk.files
    ensures Docs(v.disk)[IntentFile(op)].IntentDoc? && Docs(v.disk)[IntentFile(op)].intent.status == x.hold
  {
    ReachesItself(w);
    NotDurable(w.disk, op);
    u := Changes(w, w, x, op, false);
    v := IntentReplaced(u, op);
  }

  // ---------------------------------------------------------------- how long a hold stands

  /** Neither an operation nor anyone else asks for another hold. */
  ghost predicate Undisturbed(w: World, v: World) {
    exists a :: Enabled(w, a) && !a.OtherHold? && !(a.Send? && a.request.PutHold?) && v == Apply(w, a)
  }

  ghost predicate Quiet(run: seq<World>) {
    |run| > 0 && forall i :: 0 <= i < |run| - 1 ==> Undisturbed(run[i], run[i + 1])
  }

  /** No request under way would change the version's hold. */
  ghost predicate NoneUnderway(w: World, x: Version) {
    forall r :: r in w.pending && r.PutHold? && r.version == x.id ==> r.status == x.hold
  }

  lemma UndisturbedKeeps(w: World, v: World, x: Version)
    requires Inv(w) && w.versions == [x] && NoneUnderway(w, x) && Undisturbed(w, v)
    ensures Inv(v) && v.versions == [x] && NoneUnderway(v, x)
  {
    var a :| Enabled(w, a) && !a.OtherHold? && !(a.Send? && a.request.PutHold?) && v == Apply(w, a);
    ActionKeeps(w, a);
    if a.Arrive? && a.arriving.PutHold? {
      assert v.versions[0] == x;
    }
  }

  lemma {:induction false} QuietKeeps(run: seq<World>, i: nat, x: Version)
    requires Quiet(run) && Inv(run[0]) && run[0].versions == [x] && NoneUnderway(run[0], x) && i < |run|
    ensures Inv(run[i]) && run[i].versions == [x] && NoneUnderway(run[i], x)
  {
    if i > 0 {
      QuietKeeps(run, i - 1, x);
      UndisturbedKeeps(run[i - 1], run[i], x);
    }
  }

  ghost predicate StandsIn(run: seq<World>, w: World) {
    Quiet(run) && run[0] == w ==> run[|run| - 1].versions == w.versions
  }

  /** A hold that was read back stands until another is asked for exactly when no request that
      was sent before would still change it. */
  lemma HoldStandsExactly(w: World, x: Version)
    requires Inv(w) && w.versions == [x]
    ensures NoneUnderway(w, x) <==> forall run :: StandsIn(run, w)
  {
    if NoneUnderway(w, x) {
      forall run ensures StandsIn(run, w) {
        if Quiet(run) && run[0] == w {
          QuietKeeps(run, |run| - 1, x);
        }
      }
    } else {
      var r :| r in w.pending && r.PutHold? && r.version == x.id && r.status != x.hold;
      var v := Apply(w, Arrive(r, ""));
      assert v.versions[0].hold == r.status;
      assert Undisturbed(w, v);
      assert !StandsIn([w, v], w);
    }
  }

  /** A request of one operation whose reply was lost arrives after another operation has read the
      hold back and stored its receipt, and undoes it. */
  lemma LateHoldUndoes(w: World, x: Version, op: string, other: string) returns (u: World, v: World)
    requires Holding(w, x) && op != other
    requires IntentFile(op) !in w.disk.files && HoldReceiptFile(op) !in w.disk.files
    requires IntentFile(other) !in w.disk.files && HoldReceiptFile(other) !in w.disk.files
    ensures Reaches(w, u) && HasReceipt(u, other, x.hold) && Settled(u.disk) && u.versions == [x]
    ensures Quiet([u, v]) && v.versions == [x.(hold := Flip(x.hold))] && HasReceipt(v, other, x.hold)
  {
    var status := Flip(x.hold);
    ReachesItself(w);
    u := Intends(w, w, x, op, status, true);
    u := Sends(w, u, x, op, status);
    var sent := u.pending;
    u := Intends(w, u, x, other, x.hold, true);
    u := Concludes(w, u, x, other, IntentFor(x, x.hold), true);
    var a := Arrive(PutHold(op, x.id, status, x.hold), "");
    v := Apply(u, a);
    assert Undisturbed(u, v);
    assert v.versions == [x.(hold := status)];
  }
}
