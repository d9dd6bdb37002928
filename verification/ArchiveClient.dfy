/** `archive` and `legal_hold` of scripts/rekey-audit-archive.py, among late requests, lost
    replies and others' requests. */
module ArchiveClient {
  import ArchiveHolds
  import opened ArchiveStore
  import opened Outcomes
  import opened WriteOnceDirectory

  /** What HEAD returns of the latest version. */
  datatype Head = Head(version: string, sum: Sum)

  /** What everyone else may change: the versions, but not their identity or contents. */
  ghost predicate Drifts(w: World, v: World) {
    v.disk == w.disk && v.log == w.log && v.midway == w.midway && v.pending <= w.pending && Evolves(w.versions, v.versions)
  }

  /** No file came or went; only reads were made. */
  ghost predicate OnlyReads(w: World, v: World) {
    v.disk == w.disk && v.midway == w.midway && w.log <= v.log && NoSend(w.log, v.log) && Evolves(w.versions, v.versions)
  }

  ghost predicate NoSend(before: seq<Event>, after: seq<Event>) {
    forall i :: |before| <= i < |after| ==> !after[i].Sent?
  }

  predicate ByOthers(a: Action) {
    a.Arrive? || a.OtherHold? || a.OtherPut?
  }

  predicate CanHappen(w: World, a: Action)
    requires ByOthers(a)
    ensures CanHappen(w, a) <==> Enabled(w, a)
  {
    match a
    case Arrive(r, _) => r in w.pending
    case OtherHold(_, _) => true
    case OtherPut(_) => |w.versions| == 0
  }

  /** What the steps of one write leave, as far as the client cares. */
  lemma WriteLeaves(d: Disk<Name, Doc>, name: Name, doc: Doc, temporary: nat, k: nat)
    requires Ready(d) && name !in d.files && k <= 6
    ensures var e := WriteAt(d, name, doc, temporary, k);
            && Sound(e) && (name in e.durable <==> k == 6)
            && (k == 6 ==> Ready(e) && Settled(e) && name in e.files && Docs(e) == Docs(d)[name := doc] && Docs(e)[name] == doc)
  {
    Steps(d, name, doc, temporary, k);
    KilledAt(d, name, doc, temporary, k);
    if k == 6 {
      assert name in Docs(WriteAt(d, name, doc, temporary, 6));
    }
  }

  class Archiver {
    const size: Doc -> nat
    var world: World
    var total: nat
    var count: nat
    ghost var trace: seq<World>

    /** A call in progress: the journal is open and holds no partial file. */
    ghost predicate Valid()
      reads this
    {
      Run(trace) && trace[|trace| - 1] == world && Inv(world) && Ready(world.disk)
    }

    /** After a call, which may have been killed. */
    ghost predicate Traced()
      reads this
    {
      Run(trace) && trace[|trace| - 1] == world && Inv(world)
    }

    ghost method Record(a: Action, v: World)
      requires Traced() && Enabled(world, a) && v == Apply(world, a)
      modifies this`trace
      ensures trace == old(trace) + [v] && Run(trace) && Inv(v)
    {
      ActionKeeps(world, a);
      Extend(trace, a);
      trace := trace + [v];
    }

    method Others()
      requires Valid()
      modifies this`world, this`trace
      ensures Valid() && old(trace) <= trace && Drifts(old(world), world)
    {
      var n: nat :| true;
      for i := 0 to n
        invariant Valid() && old(trace) <= trace && Drifts(old(world), world)
      {
        var a: Action :| true;
        if ByOthers(a) && CanHappen(world, a) {
          Record(a, Apply(world, a));
          world := Apply(world, a);
        }
      }
    }

    // -------------------------------------------------------------- the journal

    /** `Journal.read` of a record, of at most 64 KiB. */
    method ReadDoc(name: Name) returns (r: Outcome<Doc>)
      requires Valid()
      ensures r.Done? ==> name in Docs(world.disk) && r.value == Docs(world.disk)[name]
    {
      var _ :- Fault();
      if name !in world.disk.files {
        return Failed;
      }
      var doc := Docs(world.disk)[name];
      if name != BatchFile && size(doc) > MAX_RECORD {
        return Failed;
      }
      return Done(doc);
    }

    /** `Journal.write`; `refused` says that it was refused for want of room. */
    method WriteDoc(name: Name, doc: Doc) returns (r: Outcome<()>, refused: bool)
      requires Valid() && name !in world.disk.files && MayWrite(world, Docs(world.disk), name, doc)
      modifies this`world, this`trace, this`total, this`count
      ensures Traced() && old(trace) <= trace && world.log == old(world).log && world.versions == old(world).versions
      ensures world.pending == old(world).pending
      ensures refused <==> !Fits(old(total), old(count), size(doc))
      ensures refused ==> r == Failed
      ensures r.Done? ==> Valid() && Docs(world.disk) == Docs(old(world).disk)[name := doc] && Settled(world.disk)
                          && name in world.disk.files && Docs(world.disk)[name] == doc
                          && total == old(total) + size(doc) && count == old(count) + 1
                          && world.midway == (name == BatchFile)
    {
      refused := !Fits(total, count, size(doc));
      if refused {
        return Failed, true;
      }
      var store := new Store(world.disk);
      var outcome, temporary, steps := store.Write(name, doc);
      WriteLeaves(world.disk, name, doc, temporary, steps);
      ghost var v := Apply(world, Write(name, doc, temporary, steps));
      Record(Write(name, doc, temporary, steps), v);
      world := world.(disk := store.disk, midway := name == BatchFile && name in store.disk.durable);
      if outcome != Written {
        return if outcome == WriteOutcome.Killed then Outcome.Killed else Failed, false;
      }
      total, count := total + size(doc), count + 1;
      return Done(()), false;
    }

    // -------------------------------------------------------------- reading back

    /** HEAD of the latest version, if there is one. */
    method ReadHead() returns (r: Outcome<Option<Head>>)
      requires Valid()
      modifies this`world, this`trace
      ensures Valid() && old(trace) <= trace && OnlyReads(old(world), world)
      ensures r.Done? && r.value.Some? ==> Seen(world.log, |old(world).log|, ReadSum(r.value.value.version, r.value.value.sum))
                                           && |world.log| == |old(world).log| + 1
    {
      Others();
      var _ :- Fault();
      if |world.versions| == 0 {
        return Done(None);
      }
      var latest := world.versions[|world.versions| - 1];
      var e := ReadSum(latest.id, latest.sum);
      Record(Read(e), Apply(world, Read(e)));
      world := world.(log := world.log + [e]);
      Others();
      var _ :- Fault();
      return Done(Some(Head(latest.id, latest.sum)));
    }

    /** GET of a version's retention. */
    method GetRetention(version: string) returns (r: Outcome<(string, int)>)
      requires Valid()
      modifies this`world, this`trace
      ensures Valid() && old(trace) <= trace && OnlyReads(old(world), world)
      ensures r.Done? ==> world.log == old(world).log + [ReadRetention(version, r.value.0, r.value.1)]
    {
      Others();
      var _ :- Fault();
      if |world.versions| == 0 || world.versions[0].id != version {
        return Failed;
      }
      var e := ReadRetention(version, world.versions[0].mode, world.versions[0].until);
      assert Retains(world.versions[0], version, e.mode, e.until);
      Record(Read(e), Apply(world, Read(e)));
      world := world.(log := world.log + [e]);
      return Done((e.mode, e.until));
    }

    /** GET of a version's hold. */
    method GetHold(version: string) returns (r: Outcome<Hold>)
      requires Valid()
      modifies this`world, this`trace
      ensures Valid() && old(trace) <= trace && OnlyReads(old(world), world)
      ensures r.Done? ==> world.log == old(world).log + [ReadHold(version, r.value)]
    {
      Others();
      var _ :- Fault();
      if |world.versions| == 0 || world.versions[0].id != version {
        return Failed;
      }
      var e := ReadHold(version, world.versions[0].hold);
      assert world.versions[0].id == version;
      Record(Read(e), Apply(world, Read(e)));
      world := world.(log := world.log + [e]);
      return Done(e.hold);
    }

    /** The retention and then the hold of a version; the retention must be the planned one. */
    method ReadLocks(version: string, wanted: Wanted) returns (r: Outcome<Readback>)
      requires Valid()
      modifies this`world, this`trace
      ensures Valid() && old(trace) <= trace && OnlyReads(old(world), world)
      ensures r.Done? ==>
                && r.value.version == version && r.value.mode == wanted.mode && r.value.until == wanted.until
                && |world.log| == |old(world).log| + 2 && LastRead(world.log, version, r.value.hold)
                && Seen(world.log, |old(world).log|, ReadRetention(version, wanted.mode, wanted.until))
    {
      var retention :- GetRetention(version);
      if retention != (wanted.mode, wanted.until) {
        return Failed;
      }
      var hold :- GetHold(version);
      var at: int :| true;
      return Done(Readback(version, wanted.mode, wanted.until, hold, at));
    }

    /** `observed`: the pinned version, or the latest one, which is then pinned. `head` is what an
        earlier HEAD of this call returned. */
    method Observed(wanted: Wanted, pinned: Option<string>, head: Option<Head>, ghost at: int) returns (r: Outcome<Readback>)
      requires Valid() && PlanFile in world.disk.files && Docs(world.disk)[PlanFile].PlanDoc?
      requires Docs(world.disk)[PlanFile].plan.wanted == wanted
      requires pinned.None? ==> VersionFile !in world.disk.files
      requires head.Some? ==> pinned.None? && Seen(world.log, at, ReadSum(head.value.version, head.value.sum))
      modifies this`world, this`trace, this`total, this`count
      ensures Traced() && old(trace) <= trace && old(world).log <= world.log && NoSend(old(world).log, world.log)
      ensures pinned.Some? ==> Valid() && world.disk == old(world).disk && total == old(total) && count == old(count)
      ensures r.Done? ==> Valid() && ReadAsPlanned(world.log, r.value.version, wanted.(hold := r.value.hold))
                          && r.value.mode == wanted.mode && r.value.until == wanted.until
                          && LastRead(world.log, r.value.version, r.value.hold)
      ensures r.Done? && pinned.Some? ==> r.value.version == pinned.value
      ensures r.Done? && pinned.None? ==>
                Docs(world.disk) == Docs(old(world).disk)[VersionFile := VersionDoc(r.value.version)]
    {
      var seen := head;
      ghost var n := at;
      if head.None? {
        n := |world.log|;
        seen :- ReadHead();
      }
      if seen.None? || (pinned.Some? && seen.value.version != pinned.value) || seen.value.sum != wanted.sum {
        return Failed;
      }
      if pinned.None? {
        assert GoodRead(world.log[n], world.versions);
        var written, refused := WriteDoc(VersionFile, VersionDoc(seen.value.version));
        var _ :- written;
      }
      ghost var before := world.log;
      var back :- ReadLocks(seen.value.version, wanted);
      assert Seen(world.log, n, before[n]);
      assert Seen(world.log, |world.log| - 1, ReadHold(back.version, back.hold));
      return Done(back);
    }

    // -------------------------------------------------------------- archive

    constructor (size: Doc -> nat)
      ensures Traced() && Initial(world) && this.size == size
    {
      this.size := size;
      var start := World(Disk(map[], {}, map[], {}, {}), [], {}, [], false);
      world, trace, total, count := start, [start], 0, 1;
      new;
      RunKeeps(trace, 0);
    }

    /** Opening the journal: a leftover partial file is refused. */
    method Open() returns (r: Outcome<()>)
      requires Traced()
      modifies this
      ensures Traced() && old(trace) <= trace && world == old(world).(midway := false)
      ensures r.Done? ==> Valid()
    {
      Record(Begin, Apply(world, Begin));
      world := world.(midway := false);
      var bytes: nat, entries: nat :| true;
      total, count := bytes, entries;
      if world.disk.partials != map[] {
        return Failed;
      }
      r := Fault();
    }

    /** The plan for this journal: written once, or the one that is there, if it is the same. */
    method Prepare(wanted: Wanted, payload: string, operator: string) returns (r: Outcome<Plan>, isNew: bool)
      requires Valid() && wanted.sum == Sha256(payload) && !world.midway
      modifies this`world, this`trace, this`total, this`count
      ensures Traced() && old(trace) <= trace && world.log == old(world).log
      ensures isNew ==> PlanFile !in old(world).disk.files
      ensures r.Done? ==>
                && Valid() && r.value.wanted == wanted
                && PlanFile in world.disk.files && Docs(world.disk)[PlanFile] == PlanDoc(r.value)
                && BatchFile in world.disk.files && Docs(world.disk)[BatchFile] == BatchDoc(payload)
                && (isNew ==> old(world).disk.files == map[] && VersionFile !in world.disk.files)
                && (!isNew ==> world.disk == old(world).disk)
    {
      isNew := PlanFile !in world.disk.files;
      if !isNew {
        var plan :- ReadDoc(PlanFile);
        var batch :- ReadDoc(BatchFile);
        if !(plan.PlanDoc? && batch == BatchDoc(payload) && plan.plan.wanted == wanted) {
          return Failed, isNew;
        }
        return Done(plan.plan), isNew;
      }
      if world.disk.files != map[] {
        return Failed, isNew;
      }
      var createdAt: int :| true;
      var plan := Plan(wanted, operator, createdAt);
      var written, refused := WriteDoc(BatchFile, BatchDoc(payload));
      var _ :- written;
      written, refused := WriteDoc(PlanFile, PlanDoc(plan));
      var _ :- written;
      assert Docs(world.disk).Keys == {BatchFile, PlanFile};
      assert VersionFile !in Docs(world.disk);
      return Done(plan), isNew;
    }

    /** Send a request. Its reply may be lost, and it may still arrive; if it is confirmed, the
        answer is whether it made the object's first version, with this identifier. */
    method Post(r: Request, id: string) returns (answer: Outcome<bool>)
      requires Valid() && MaySend(world, Docs(world.disk), r)
      modifies this`world, this`trace
      ensures Valid() && old(trace) <= trace && world.disk == old(world).disk && world.midway == old(world).midway
      ensures world.log == old(world).log + [Sent(r)]
      ensures answer == Done(true) && r.PutObject? ==>
                |world.versions| == 1 && world.versions[0].id == id && world.versions[0].sum == Sha256(r.body)
    {
      Record(Send(r), Apply(world, Send(r)));
      world := world.(pending := world.pending + {r}, log := world.log + [Sent(r)]);
      Others();
      var _ :- Fault();
      if r !in world.pending {
        return Failed;
      }
      var first := |world.versions| == 0;
      Record(Arrive(r, id), Apply(world, Arrive(r, id)));
      world := Arrived(world, r, id);
      Others();
      var _ :- Fault();
      return Done(first);
    }

    /** The conditional upload. A reply may be lost, and the request still arrive; the version that
        a confirmed upload created is pinned. */
    method Upload(plan: Plan, payload: string) returns (r: Outcome<Option<string>>)
      requires Valid() && PlanFile in world.disk.files && Docs(world.disk)[PlanFile] == PlanDoc(plan)
      requires BatchFile in world.disk.files && Docs(world.disk)[BatchFile] == BatchDoc(payload)
      requires VersionFile !in world.disk.files
      modifies this`world, this`trace, this`total, this`count
      ensures Traced() && old(trace) <= trace && old(world).log <= world.log
      ensures r.Done? ==> Valid()
      ensures r.Done? && r.value.Some? ==> Docs(world.disk) == Docs(old(world).disk)[VersionFile := VersionDoc(r.value.value)]
      ensures r.Done? && r.value.None? ==> world.disk == old(world).disk
    {
      var id: string := *;
      var created :- Post(PutFor(payload, plan), id);
      if !created {
        return Done(None);
      }
      var written, refused := WriteDoc(VersionFile, VersionDoc(id));
      var _ :- written;
      return Done(Some(id));
    }

    /** `archive`. */
    method Archive(target: string, payload: string, mode: string, until: int, hold: Hold, operator: string)
      returns (r: Outcome<Receipt>)
      requires Traced()
      modifies this
      ensures Traced() && old(trace) <= trace
      ensures r.Done? ==>
                && ReceiptFile in world.disk.files && Docs(world.disk)[ReceiptFile] == ReceiptDoc(r.value)
                && r.value.wanted == Wanted(target, Sha256(payload), mode, until, hold)
                && GoodReceipt(world.versions, world.log, r.value)
      ensures r.Done? && ReceiptFile in old(world).disk.files ==> Docs(old(world).disk)[ReceiptFile] == ReceiptDoc(r.value)
    {
      var _ :- Open();
      var plan, isNew :- Prepare(Wanted(target, Sha256(payload), mode, until, hold), payload, operator);
      r := Complete(plan, payload, isNew);
    }

    /** `archive` once the plan is there. */
    method Complete(plan: Plan, payload: string, isNew: bool) returns (r: Outcome<Receipt>)
      requires Valid() && plan.wanted.sum == Sha256(payload)
      requires PlanFile in world.disk.files && Docs(world.disk)[PlanFile] == PlanDoc(plan)
      requires BatchFile in world.disk.files && Docs(world.disk)[BatchFile] == BatchDoc(payload)
      requires isNew ==> VersionFile !in world.disk.files
      modifies this`world, this`trace, this`total, this`count
      ensures Traced() && old(trace) <= trace
      ensures r.Done? ==>
                && ReceiptFile in world.disk.files && Docs(world.disk)[ReceiptFile] == ReceiptDoc(r.value)
                && r.value.wanted == plan.wanted && GoodReceipt(world.versions, world.log, r.value)
      ensures r.Done? && ReceiptFile in old(world).disk.files ==> Docs(old(world).disk)[ReceiptFile] == ReceiptDoc(r.value)
    {
      var found, at := Locate(plan, payload, isNew);
      var pair :- found;
      r := Confirm(plan, pair.0, pair.1, at);
    }

    /** Read the version back, and store the receipt if it is as planned. */
    method Confirm(plan: Plan, known: Option<string>, head: Option<Head>, ghost at: int) returns (r: Outcome<Receipt>)
      requires Valid() && PlanFile in world.disk.files && Docs(world.disk)[PlanFile] == PlanDoc(plan)
      requires if known.Some? then VersionFile in world.disk.files && Docs(world.disk)[VersionFile] == VersionDoc(known.value)
               else VersionFile !in world.disk.files
      requires head.Some? ==> known.None? && Seen(world.log, at, ReadSum(head.value.version, head.value.sum))
      modifies this`world, this`trace, this`total, this`count
      ensures Traced() && old(trace) <= trace
      ensures r.Done? ==>
                && ReceiptFile in world.disk.files && Docs(world.disk)[ReceiptFile] == ReceiptDoc(r.value)
                && r.value.wanted == plan.wanted && GoodReceipt(world.versions, world.log, r.value)
      ensures r.Done? && ReceiptFile in old(world).disk.files ==> Docs(old(world).disk)[ReceiptFile] == ReceiptDoc(r.value)
    {
      ghost var docs := Docs(world.disk);
      var back :- Observed(plan.wanted, known, head, at);
      if back.hold != plan.wanted.hold {
        return Failed;
      }
      assert known.None? ==> Docs(world.disk) == docs[VersionFile := VersionDoc(back.version)];
      assert plan.wanted.(hold := back.hold) == plan.wanted;
      r := StoreReceipt(Receipt(plan.wanted, plan.operator, back));
    }

    /** The version to observe: the pinned one; the latest one, already read or not; or the one
        that an upload creates. */
    method Locate(plan: Plan, payload: string, isNew: bool) returns (r: Outcome<(Option<string>, Option<Head>)>, ghost at: int)
      requires Valid() && plan.wanted.sum == Sha256(payload)
      requires PlanFile in world.disk.files && Docs(world.disk)[PlanFile] == PlanDoc(plan)
      requires BatchFile in world.disk.files && Docs(world.disk)[BatchFile] == BatchDoc(payload)
      requires isNew ==> VersionFile !in world.disk.files
      modifies this`world, this`trace, this`total, this`count
      ensures Traced() && old(trace) <= trace
      ensures r.Done? ==>
                && Valid() && (r.value.1.Some? ==> Seen(world.log, at, ReadSum(r.value.1.value.version, r.value.1.value.sum)))
                && (r.value.1.Some? ==> r.value.0.None?)
                && if r.value.0.Some?
                   then Docs(world.disk) == Docs(old(world).disk)[VersionFile := VersionDoc(r.value.0.value)]
                   else VersionFile !in world.disk.files && world.disk == old(world).disk
    {
      at := |world.log|;
      if VersionFile in world.disk.files {
        var pinned :- ReadDoc(VersionFile);
        return Done((Some(pinned.version), None)), at;
      }
      var head: Option<Head> := None;
      if !isNew {
        head :- ReadHead();
      }
      if head.Some? {
        return Done((None, head)), at;
      }
      var known :- Upload(plan, payload);
      return Done((known, None)), at;
    }

    /** The end of `archive`: the receipt is stored, unless there is one of the same version. */
    method StoreReceipt(receipt: Receipt) returns (r: Outcome<Receipt>)
      requires Valid() && PlanFile in world.disk.files && Docs(world.disk)[PlanFile].PlanDoc?
      requires MayWrite(world, Docs(world.disk), ReceiptFile, ReceiptDoc(receipt))
      modifies this`world, this`trace, this`total, this`count
      ensures Traced() && old(trace) <= trace
      ensures r.Done? ==>
                && ReceiptFile in world.disk.files && Docs(world.disk)[ReceiptFile] == ReceiptDoc(r.value)
                && r.value.wanted.sum == receipt.wanted.sum && r.value.readback.version == receipt.readback.version
                && GoodReceipt(world.versions, world.log, r.value)
      ensures r.Done? && ReceiptFile in old(world).disk.files ==> Docs(old(world).disk)[ReceiptFile] == ReceiptDoc(r.value)
      ensures r.Done? && ReceiptFile !in old(world).disk.files ==> r.value == receipt
    {
      if ReceiptFile in world.disk.files {
        var original :- ReadDoc(ReceiptFile);
        if original.receipt.readback.version != receipt.readback.version || original.receipt.wanted.sum != receipt.wanted.sum {
          return Failed;
        }
        return Done(original.receipt);
      }
      var written, refused := WriteDoc(ReceiptFile, ReceiptDoc(receipt));
      var _ :- written;
      return Done(receipt);
    }

    // -------------------------------------------------------------- legal hold

    /** The intent of an operation: the one that is there, if it is the same operation, or a new
        one. Only a new one asks for room, for itself and for its receipt. */
    method Intend(op: string, status: Hold, operator: string, version: string, before: Readback)
      returns (r: Outcome<Intent>, refused: bool, ghost length: nat)
      requires Valid() && LastRead(world.log, version, before.hold)
      modifies this`world, this`trace, this`total, this`count
      ensures Traced() && old(trace) <= trace && world.log == old(world).log && world.versions == old(world).versions
      ensures r.Done? ==>
                && Valid() && r.value.status == status && r.value.version == version
                && IntentFile(op) in world.disk.files && Docs(world.disk)[IntentFile(op)] == IntentDoc(r.value)
      ensures r.Done? ==> SameDoc(old(world).disk, world.disk, PlanFile)
                          && SameDoc(old(world).disk, world.disk, HoldReceiptFile(op))
      ensures IntentFile(op) in old(world).disk.files ==> world.disk == old(world).disk
      ensures r.Done? && IntentFile(op) !in old(world).disk.files ==>
                && r.value.before == before && length == size(IntentDoc(r.value))
                && Admits(old(total), old(count)) && total == old(total) + length && count == old(count) + 1
      ensures refused ==> r == Failed && IntentFile(op) !in old(world).disk.files && length > MAX_RECORD
    {
      refused, length := false, 0;
      if IntentFile(op) in world.disk.files {
        var doc :- ReadDoc(IntentFile(op));
        if !(doc.IntentDoc? && doc.intent.status == status && doc.intent.operator == operator && doc.intent.version == version) {
          return Failed, false, 0;
        }
        return Done(doc.intent), false, 0;
      }
      if !Admits(total, count) {
        return Failed, false, 0;
      }
      var at: int :| true;
      var intent := Intent(status, operator, version, before, at);
      length := size(IntentDoc(intent));
      var written;
      written, refused := WriteDoc(IntentFile(op), IntentDoc(intent));
      var _ :- written;
      assert PlanFile in Docs(world.disk) <==> PlanFile in Docs(old(world).disk);
      assert HoldReceiptFile(op) in Docs(world.disk) <==> HoldReceiptFile(op) in Docs(old(world).disk);
      return Done(intent), false, length;
    }

    /** The request that changes the hold; its reply may be lost, and it may still arrive. */
    method ChangeHold(op: string, version: string, status: Hold, from: Hold) returns (r: Outcome<()>)
      requires Valid() && MaySend(world, Docs(world.disk), PutHold(op, version, status, from))
      modifies this`world, this`trace
      ensures Valid() && old(trace) <= trace && world.disk == old(world).disk
      ensures world.log == old(world).log + [Sent(PutHold(op, version, status, from))]
    {
      var _ :- Post(PutHold(op, version, status, from), version);
      return Done(());
    }

    /** The hold is read back as asked for, and the receipt is written. */
    method Conclude(op: string, wanted: Wanted, operator: string, intent: Intent)
      returns (r: Outcome<HoldReceipt>, refused: bool, ghost length: nat)
      requires Valid() && PlanFile in world.disk.files && Docs(world.disk)[PlanFile].PlanDoc?
      requires Docs(world.disk)[PlanFile].plan.wanted == wanted
      requires IntentFile(op) in world.disk.files && Docs(world.disk)[IntentFile(op)] == IntentDoc(intent)
      requires HoldReceiptFile(op) !in world.disk.files
      modifies this`world, this`trace, this`total, this`count
      ensures Traced() && old(trace) <= trace && old(world).log <= world.log
      ensures r.Done? ==>
                && HoldReceiptFile(op) in world.disk.files && Docs(world.disk)[HoldReceiptFile(op)] == HoldReceiptDoc(r.value)
                && r.value.operation == op && r.value.before == intent.before && LastHold(world.log, intent.status)
                && r.value.status == intent.status == r.value.after.hold && Settled(world.disk)
      ensures refused ==> r == Failed && !Fits(old(total), old(count), length)
    {
      refused, length := false, 0;
      var after :- Observed(wanted, Some(intent.version), None, 0);
      if after.hold != intent.status {
        return Failed, false, 0;
      }
      var value := HoldReceipt(op, intent.status, operator, intent.version, intent.before, after);
      length := size(HoldReceiptDoc(value));
      var written;
      written, refused := WriteDoc(HoldReceiptFile(op), HoldReceiptDoc(value));
      var _ :- written;
      return Done(value), false, length;
    }

    /** `legal_hold` once the intent is there. */
    method CarryOut(op: string, wanted: Wanted, operator: string, intent: Intent, before: Readback)
      returns (r: Outcome<HoldReceipt>, refused: bool, ghost length: nat)
      requires Valid() && PlanFile in world.disk.files && Docs(world.disk)[PlanFile].PlanDoc?
      requires Docs(world.disk)[PlanFile].plan.wanted == wanted
      requires IntentFile(op) in world.disk.files && Docs(world.disk)[IntentFile(op)] == IntentDoc(intent)
      requires LastRead(world.log, intent.version, before.hold)
      modifies this`world, this`trace, this`total, this`count
      ensures Traced() && old(trace) <= trace && old(world).log <= world.log
      ensures r.Done? ==>
                && HoldReceiptFile(op) in world.disk.files && Docs(world.disk)[HoldReceiptFile(op)] == HoldReceiptDoc(r.value)
                && LastHold(world.log, intent.status)
      ensures HoldReceiptFile(op) in old(world).disk.files ==> world == old(world)
      ensures r.Done? && HoldReceiptFile(op) !in old(world).disk.files ==>
                && r.value.operation == op && r.value.before == intent.before
                && r.value.status == intent.status == r.value.after.hold && Settled(world.disk)
      ensures refused ==> r == Failed && !Fits(old(total), old(count), length)
    {
      refused, length := false, 0;
      if before.hold != intent.before.hold && before.hold != intent.status {
        return Failed, false, 0;
      }
      if HoldReceiptFile(op) in world.disk.files {
        if before.hold != intent.status {
          return Failed, false, 0;
        }
        var doc :- ReadDoc(HoldReceiptFile(op));
        return if doc.HoldReceiptDoc? then Done(doc.done) else Failed, false, 0;
      }
      if before.hold != intent.status {
        var _ :- ChangeHold(op, intent.version, intent.status, before.hold);
      }
      r, refused, length := Conclude(op, wanted, operator, intent);
    }

    /** `legal_hold`. A finished operation returns its original receipt, sends nothing and syncs
        nothing, so that it stays finished only if the receipt's name was durable; a new one ends
        with everything durable. A new one that is admitted is refused for want of room only if
        its two records are too long. */
    method LegalHold(op: string, status: Hold, operator: string)
      returns (r: Outcome<HoldReceipt>, refused: bool, ghost lengths: nat)
      requires Traced()
      modifies this
      ensures Traced() && old(trace) <= trace && old(world).log <= world.log
      ensures r.Done? ==>
                && HoldReceiptFile(op) in world.disk.files && Docs(world.disk)[HoldReceiptFile(op)] == HoldReceiptDoc(r.value)
                && LastHold(world.log, status)
      ensures r.Done? && HoldReceiptFile(op) in old(world).disk.files ==>
                Docs(old(world).disk)[HoldReceiptFile(op)] == HoldReceiptDoc(r.value) && NoSend(old(world).log, world.log)
      ensures HoldReceiptFile(op) in old(world).disk.files && IntentFile(op) in old(world).disk.files ==>
                world.disk == old(world).disk && (r.Done? && ArchiveHolds.Agrees(old(world), op) ==> r.value.status == status)
      ensures r.Done? && HoldReceiptFile(op) !in old(world).disk.files ==>
                r.value.operation == op && r.value.status == status == r.value.after.hold && Settled(world.disk)
      ensures refused && IntentFile(op) !in old(world).disk.files ==> lengths > MAX_RECORD
    {
      refused, lengths := false, 0;
      var recalled :- Recall();
      var (wanted, before) := recalled;
      var intent;
      intent, refused, lengths := Intend(op, status, operator, before.version, before);
      var i :- intent;
      ghost var first := lengths;
      r, refused, lengths := CarryOut(op, wanted, operator, i, before);
      lengths := lengths + first;
    }

    /** The start of `legal_hold`: the plan, and the version of its receipt, read back. */
    method Recall() returns (r: Outcome<(Wanted, Readback)>)
      requires Traced()
      modifies this
      ensures Traced() && old(trace) <= trace && old(world).log <= world.log && NoSend(old(world).log, world.log)
      ensures world.disk == old(world).disk
      ensures r.Done? ==>
                && Valid() && PlanFile in world.disk.files && Docs(world.disk)[PlanFile].PlanDoc?
                && Docs(world.disk)[PlanFile].plan.wanted == r.value.0
                && LastRead(world.log, r.value.1.version, r.value.1.hold)
    {
      var _ :- Open();
      var plan :- ReadDoc(PlanFile);
      var receipt :- ReadDoc(ReceiptFile);
      var version := receipt.receipt.readback.version;
      var before :- Observed(plan.plan.wanted, Some(version), None, 0);
      return Done((plan.plan.wanted, before));
    }
  }

  ghost predicate LastHold(log: seq<Event>, hold: Hold) {
    |log| > 0 && log[|log| - 1].ReadHold? && log[|log| - 1].hold == hold
  }

  ghost predicate SameDoc(d: Disk<Name, Doc>, e: Disk<Name, Doc>, n: Name) {
    Sound(d) && Sound(e) && (n in d.files <==> n in e.files) && (n in d.files ==> Docs(d)[n] == Docs(e)[n])
  }
}
