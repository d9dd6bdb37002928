/** The receiver program and the `sync` driver of scripts/rekey-backup-sync.py, interleaved
    with any number of others. */
module BackupReceiver {
  import opened BackupStore
  import opened Outcomes

  datatype Mode = Prepare | Publish

  /** What the receiver prints when it ends well. */
  datatype Answer = AskUpload | SayVerified

  /** One entry of the local outbox: its artifact and receipt files. */
  datatype LocalExport = LocalExport(name: string, artifact: string, receipt: string)

  /** The receipt that the driver sends along, as the receiver decodes it. */
  function Expected(c: Codec, dump: Receipt -> string, e: LocalExport): Option<Receipt> {
    var r := c.parse(e.receipt);
    if r.Some? then c.parse(dump(r.value)) else None
  }

  /** The entries that `sync` does not skip, among the first `n`. */
  function Eligible(outbox: seq<LocalExport>, n: nat): nat
    requires n <= |outbox|
  {
    if n == 0 then 0 else Eligible(outbox, n - 1) + if IsStage(outbox[n - 1].name) then 0 else 1
  }

  // ---------------------------------------------------------------- reading

  /** The reading loop for the receipt, with reads of any length: the bytes, unless there are
      more than 64 KiB of them. */
  method ReadReceipt(file: string) returns (r: Option<string>)
    ensures r == if |file| <= MAX_RECEIPT then Some(file) else None
  {
    var bytes: string := [];
    while |bytes| <= MAX_RECEIPT && |bytes| < |file|
      invariant |bytes| <= |file| && bytes == file[..|bytes|] && |bytes| <= MAX_RECEIPT + 1
      decreases |file| - |bytes|
    {
      var n :| 1 <= n <= MAX_RECEIPT + 1 - |bytes| && n <= |file| - |bytes|;
      bytes := bytes + file[|bytes|..|bytes| + n];
    }
    assert |bytes| == |file| ==> bytes == file;
    return if |bytes| > MAX_RECEIPT then None else Some(bytes);
  }

  /** The reading loop for the artifact, which is hashed block by block. */
  method ReadArtifact(file: string) returns (hashed: string)
    ensures hashed == file
  {
    hashed := [];
    while |hashed| < |file|
      invariant |hashed| <= |file| && hashed == file[..|hashed|]
      decreases |file| - |hashed|
    {
      var n :| 1 <= n <= |file| - |hashed|;
      hashed := hashed + file[|hashed|..|hashed| + n];
    }
  }

  method Fresh(taken: set<nat>) returns (ino: nat)
    ensures ino !in taken
  {
    ino := 0;
    var rest := taken;
    while ino in rest
      invariant rest <= taken && forall x :: x in taken && x !in rest ==> x < ino
      decreases |rest|
    {
      rest := rest - {ino};
      ino := ino + 1;
    }
  }

  method FreshStage(taken: set<string>) returns (stage: string)
    ensures IsStage(stage) && stage !in taken
  {
    stage := ".";
    var rest := taken;
    while stage in rest
      invariant rest <= taken && IsStage(stage) && forall x :: x in taken && x !in rest ==> |x| < |stage|
      decreases |rest|
    {
      rest := rest - {stage};
      stage := stage + "u";
    }
  }

  // ---------------------------------------------------------------- interference

  /** What others may do while this receiver holds the lock on the root: upload to other stages. */
  predicate UnderLock(a: Action, mine: string) {
    a.Put? && a.stage != mine
  }

  /** What they may do otherwise: anything but act on this receiver's stage. */
  predicate WithoutLock(a: Action, mine: string) {
    match a
    case Mkdir(s, _) => s != mine
    case Put(s, _, _) => s != mine
    case Close(s) => s != mine
    case Rename(s, _) => s != mine
    case _ => true
  }

  /** The entries, and every object and closed stage, are as they were. */
  ghost predicate Undisturbed(w: World, v: World) {
    && v.entries == w.entries && v.durable == w.durable && v.closed == w.closed
    && forall n :: n in w.entries && w.entries[n] in w.folders && (!IsStage(n) || n in w.closed) ==>
                     w.entries[n] in v.folders && v.folders[w.entries[n]] == w.folders[w.entries[n]]
  }

  lemma PutIsElsewhere(c: Codec, w: World, a: Action)
    requires Inv(c, w) && a.Put? && Enabled(c, w, a)
    ensures Undisturbed(w, Apply(c, w, a))
  {
    assert Leads(w, a.stage, w.entries[a.stage]);
    forall n | n in w.entries && w.entries[n] in w.folders && (!IsStage(n) || n in w.closed)
      ensures w.entries[n] != w.entries[a.stage]
    {
      assert Leads(w, n, w.entries[n]);
      assert !IsStage(n) ==> Sealed(c, w, w.entries[n]);
    }
  }

  class Remote {
    const codec: Codec
    var world: World
    ghost var trace: seq<World>

    ghost predicate Valid()
      reads this
    {
      Run(codec, trace) && trace[|trace| - 1] == world
    }

    constructor (codec: Codec)
      ensures Valid() && this.codec == codec
    {
      this.codec := codec;
      world := World(map[], map[], map[], {});
      trace := [World(map[], map[], map[], {})];
    }

    method Do(a: Action)
      requires Valid() && Enabled(codec, world, a)
      modifies this
      ensures Valid() && world == Apply(codec, old(world), a) && trace == old(trace) + [world]
    {
      ghost var w := world;
      world := Apply(codec, world, a);
      assert Acted(codec, w, world);
      Extend(codec, trace, world);
      trace := trace + [world];
    }

    /** Other receivers, uploads and, without the lock, power losses. */
    method Others(mine: string, locked: bool)
      requires Valid()
      modifies this
      ensures Valid() && old(trace) <= trace && (mine in world.closed <==> mine in old(world).closed)
      ensures locked ==> Undisturbed(old(world), world)
    {
      var n: nat :| true;
      for i := 0 to n
        invariant Valid() && old(trace) <= trace && (mine in world.closed <==> mine in old(world).closed)
        invariant locked ==> Undisturbed(old(world), world)
      {
        var a: Action, v: World :| true;
        if Enabled(codec, world, a) && (if locked then UnderLock(a, mine) else WithoutLock(a, mine)) {
          if locked {
            RunKeeps(codec, trace, |trace| - 1);
            PutIsElsewhere(codec, world, a);
          }
          Do(a);
        } else if !locked && PowerLoss(world, v) {
          Extend(codec, trace, v);
          world, trace := v, trace + [v];
        }
      }
    }

    /** A point inside the locked part of the program: others act on their stages, the program
        may fail a check or be killed. */
    method Pause(mine: string) returns (r: Outcome<()>)
      requires Valid()
      modifies this
      ensures Valid() && old(trace) <= trace && Undisturbed(old(world), world)
    {
      Others(mine, true);
      r := Fault();
    }

    /** `durable_object` up to the syncs: open, list, read, decode and compare. */
    method CheckObject(entry: string, expected: string, mine: string) returns (r: Outcome<Receipt>)
      requires Valid() && entry in world.entries && (!IsStage(entry) || entry in world.closed)
      modifies this
      ensures Valid() && old(trace) <= trace && Undisturbed(old(world), world)
      ensures r.Done? ==>
                && codec.parse(expected) == Some(r.value) && world.entries[entry] in world.folders
                && Matches(codec, world.folders[world.entries[entry]], r.value)
    {
      RunKeeps(codec, trace, |trace| - 1);
      assert Leads(world, entry, world.entries[entry]);
      var folder := world.folders[world.entries[entry]];
      var _ :- Pause(mine);
      if folder.leaves.Keys != {ARTIFACT, RECEIPT} {
        return Failed;
      }
      var bytes := ReadReceipt(folder.leaves[RECEIPT].bytes);
      if bytes.None? {
        return Failed;
      }
      var receipt := codec.parse(bytes.value);
      if receipt.None? {
        return Failed;
      }
      var hashed := ReadArtifact(folder.leaves[ARTIFACT].bytes);
      if receipt != codec.parse(expected) || codec.sha256(hashed) != receipt.value.sha256Hex {
        return Failed;
      }
      return Done(receipt.value);
    }

    /** The syncs of `durable_object`: each file, then the directory. */
    method SyncObject(entry: string, receipt: Receipt, mine: string) returns (r: Outcome<()>)
      requires Valid() && entry in world.entries && (!IsStage(entry) || entry in world.closed)
      requires world.entries[entry] in world.folders && Matches(codec, world.folders[world.entries[entry]], receipt)
      modifies this
      ensures Valid() && old(trace) <= trace
      ensures world.entries == old(world).entries && world.closed == old(world).closed
      ensures r.Done? ==>
                && world.entries[entry] in world.folders && Synced(world.folders[world.entries[entry]])
                && Matches(codec, world.folders[world.entries[entry]], receipt)
    {
      var ino := world.entries[entry];
      Do(FlushLeaf(ino, ARTIFACT));
      var _ :- Pause(mine);
      Do(FlushLeaf(ino, RECEIPT));
      var _ :- Pause(mine);
      Do(FlushFolder(ino));
      var _ :- Pause(mine);
      return Done(());
    }

    /** `durable_object`. */
    method DurableObject(entry: string, name: string, expected: string, mine: string) returns (r: Outcome<Answer>)
      requires Valid() && entry in world.entries && !IsStage(name)
      requires entry == name || (entry == mine && IsStage(mine) && mine in world.closed)
      modifies this
      ensures Valid() && old(trace) <= trace && world.closed == old(world).closed
      ensures r.Done? ==> r.value == SayVerified && codec.parse(expected).Some?
                          && Verified(codec, world, name, codec.parse(expected).value)
    {
      var receipt :- CheckObject(entry, expected, mine);
      var _ :- SyncObject(entry, receipt, mine);
      if entry != name {
        if name in world.entries {
          return Failed;
        }
        Do(Rename(entry, name));
        var _ :- Pause(mine);
      }
      Do(FlushRoot);
      var _ :- Pause(mine);
      return Done(SayVerified);
    }

    /** The receiver program. The driver begins to publish a stage once its upload is over. */
    method Receive(mode: Mode, name: string, expected: string, stage: string) returns (r: Outcome<Answer>)
      requires Valid() && IsStage(stage) && !IsStage(name) && stage !in world.closed
      modifies this
      ensures Valid() && old(trace) <= trace
      ensures r.Done? && r.value == SayVerified ==>
                codec.parse(expected).Some? && Verified(codec, world, name, codec.parse(expected).value)
      ensures r.Done? && r.value == AskUpload ==>
                mode == Prepare && name !in world.entries && stage in world.entries && stage !in world.closed
      ensures mode == Prepare ==> stage !in world.closed
    {
      Others(stage, false);
      var _ :- Fault();
      if name in world.entries {
        r := DurableObject(name, name, expected, stage);
        return;
      }
      if mode == Prepare {
        if stage in world.entries {
          return Failed;
        }
        var ino := Fresh(world.folders.Keys);
        Do(Mkdir(stage, ino));
        var _ :- Pause(stage);
        return Done(AskUpload);
      }
      Do(Close(stage));
      if stage !in world.entries {
        return Failed;
      }
      r := DurableObject(stage, name, expected, stage);
    }

    /** `scp` of the two files into the stage: it holds no lock. */
    method Upload(stage: string, e: LocalExport) returns (r: Outcome<()>)
      requires Valid() && IsStage(stage) && stage !in world.closed
      modifies this
      ensures Valid() && old(trace) <= trace && stage !in world.closed
    {
      var files := [(ARTIFACT, e.artifact), (RECEIPT, e.receipt)];
      for i := 0 to 2
        invariant Valid() && old(trace) <= trace && stage !in world.closed
      {
        Others(stage, false);
        if stage !in world.entries || world.entries[stage] !in world.folders {
          return Failed;
        }
        var part: nat :| part <= |files[i].1|;
        Do(Put(stage, files[i].0, files[i].1[..part]));
        var _ :- Fault();
        Others(stage, false);
        if stage !in world.entries || world.entries[stage] !in world.folders {
          return Failed;
        }
        Do(Put(stage, files[i].0, files[i].1));
      }
      return Done(());
    }

    /** One entry of `sync`: prepare, upload if asked to, publish. */
    method SyncOne(dump: Receipt -> string, e: LocalExport) returns (r: Outcome<()>)
      requires Valid() && !IsStage(e.name)
      modifies this
      ensures Valid() && old(trace) <= trace
      ensures r.Done? ==> Delivered(codec, dump, world, e)
    {
      var receipt := codec.parse(e.receipt);
      if receipt.None? || codec.sha256(e.artifact) != receipt.value.sha256Hex {
        return Failed;
      }
      var stage := FreshStage(world.closed);
      var expected := dump(receipt.value);
      var state :- Receive(Prepare, e.name, expected, stage);
      if state == AskUpload {
        var _ :- Upload(stage, e);
        state :- Receive(Publish, e.name, expected, stage);
      }
      return if state == SayVerified then Done(()) else Failed;
    }

    /** One turn of `sync`: the exports before this one stay delivered. */
    method SyncNext(dump: Receipt -> string, outbox: seq<LocalExport>, i: nat) returns (r: Outcome<()>)
      requires Valid() && i < |outbox| && AllDelivered(codec, dump, world, outbox, i)
      modifies this
      ensures Valid() && old(trace) <= trace
      ensures r.Done? ==> AllDelivered(codec, dump, world, outbox, i + 1)
    {
      if IsStage(outbox[i].name) {
        return Done(());
      }
      ghost var n, w := |trace| - 1, world;
      var _ :- SyncOne(dump, outbox[i]);
      assert trace[n] == w;
      AllStayDelivered(codec, dump, trace, n, w, world, outbox, i);
      OneMoreDelivered(codec, dump, world, outbox, i);
      return Done(());
    }

    /** `sync`: when it ends well, every export it counted is verified, all at once. */
    method Sync(dump: Receipt -> string, outbox: seq<LocalExport>) returns (r: Outcome<nat>)
      requires Valid()
      modifies this
      ensures Valid() && old(trace) <= trace
      ensures r.Done? ==>
                && r.value == Eligible(outbox, |outbox|)
                && AllDelivered(codec, dump, world, outbox, |outbox|)
    {
      var count := 0;
      for i := 0 to |outbox|
        invariant Valid() && old(trace) <= trace && count == Eligible(outbox, i)
        invariant AllDelivered(codec, dump, world, outbox, i)
      {
        var _ :- SyncNext(dump, outbox, i);
        count := if IsStage(outbox[i].name) then count else count + 1;
      }
      return Done(count);
    }
  }

  lemma OneMoreDelivered(c: Codec, dump: Receipt -> string, w: World, outbox: seq<LocalExport>, n: nat)
    requires n < |outbox| && AllDelivered(c, dump, w, outbox, n) && Delivered(c, dump, w, outbox[n])
    ensures AllDelivered(c, dump, w, outbox, n + 1)
  {
  }

  lemma AllStayDelivered(c: Codec, dump: Receipt -> string, trace: seq<World>, i: nat, w: World, v: World,
                         outbox: seq<LocalExport>, n: nat)
    requires Run(c, trace) && i < |trace| && trace[i] == w && trace[|trace| - 1] == v
    requires n <= |outbox| && AllDelivered(c, dump, w, outbox, n)
    ensures AllDelivered(c, dump, v, outbox, n)
  {
    forall j | 0 <= j < n && !IsStage(outbox[j].name) ensures Delivered(c, dump, v, outbox[j]) {
      VerifiedSurvives(c, trace, i, |trace| - 1, outbox[j].name, Expected(c, dump, outbox[j]).value);
    }
  }

  /** The export's object is on the remote, verified against the receipt that was sent. */
  predicate Delivered(c: Codec, dump: Receipt -> string, w: World, e: LocalExport) {
    Expected(c, dump, e).Some? && Verified(c, w, e.name, Expected(c, dump, e).value)
  }

  /** So are all of the first `n` entries that `sync` does not skip. */
  predicate AllDelivered(c: Codec, dump: Receipt -> string, w: World, outbox: seq<LocalExport>, n: nat)
    requires n <= |outbox|
  {
    forall i :: 0 <= i < n && !IsStage(outbox[i].name) ==> Delivered(c, dump, w, outbox[i])
  }

  lemma Extend(c: Codec, trace: seq<World>, v: World)
    requires Run(c, trace) && Step(c, trace[|trace| - 1], v)
    ensures Run(c, trace + [v])
  {
    var more := trace + [v];
    forall i | 0 <= i < |more| - 1 ensures StepAt(c, more, i) {
      assert i < |trace| - 1 ==> StepAt(c, trace, i);
    }
  }
}
