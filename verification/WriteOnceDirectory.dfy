/** A directory of write-once files, with what a crash may do to it. Files are published as
    `Outbox.write` and `Journal.write` do: a `.partial-` file is filled and synced, linked to
    its name, unlinked, and the directory synced. */
module WriteOnceDirectory {

  datatype Data<D> = Torn | Whole(doc: D)
  datatype File<D> = File(data: Data<D>, synced: bool)

  /** The named files a process sees and which of those names are durable; likewise for the
      partial files, whose removals may not be durable either. Names are never unlinked, and a
      linked file is not written any more. */
  datatype Disk<N, D> = Disk(files: map<N, File<D>>, durable: set<N>,
                             partials: map<nat, File<D>>, durablePartials: set<nat>, removed: set<nat>)

  /** Every name, durable or not, leads to a complete and synced file. */
  ghost predicate Sound<N, D>(d: Disk<N, D>) {
    d.durable <= d.files.Keys
    && forall n :: n in d.files ==> d.files[n].synced && d.files[n].data.Whole?
  }

  /** What a process reads under each name. */
  function Docs<N, D>(d: Disk<N, D>): (docs: map<N, D>)
    requires Sound(d)
  {
    map n | n in d.files :: d.files[n].data.doc
  }

  /** No name is waiting for a directory sync. */
  predicate Settled<N, D>(d: Disk<N, D>) {
    d.durable == d.files.Keys
  }

  /** What opening requires: no leftover partial file. */
  ghost predicate Ready<N, D>(d: Disk<N, D>) {
    Sound(d) && d.partials == map[]
  }

  // ---------------------------------------------------------------- crashes

  ghost predicate FileCrash<D>(before: File<D>, after: File<D>) {
    after == before || (!before.synced && after.data == Torn)
  }

  /** Power is lost: any subset of the unsynced entry changes survives, and a file that was
      not synced may be torn. */
  ghost predicate Crash<N, D>(d: Disk<N, D>, e: Disk<N, D>) {
    && d.durable <= e.files.Keys <= d.files.Keys
    && (forall n :: n in e.files ==> FileCrash(d.files[n], e.files[n]))
    && d.partials.Keys * d.durablePartials <= e.partials.Keys <= d.partials.Keys + d.removed
    && e.durable == e.files.Keys && e.durablePartials == e.partials.Keys && e.removed == {}
  }

  /** A crash takes no durable name, adds none and changes no document. */
  lemma CrashDocs<N, D>(d: Disk<N, D>, e: Disk<N, D>)
    requires Sound(d) && Crash(d, e)
    ensures Sound(e) && Settled(e)
    ensures d.durable <= Docs(e).Keys <= Docs(d).Keys
    ensures forall n :: n in Docs(e) ==> Docs(e)[n] == Docs(d)[n]
  {
  }

  /** The operator, who is asked to review leftover partial files, unlinks them. */
  function Review<N, D>(d: Disk<N, D>): Disk<N, D> {
    d.(partials := map[], removed := d.removed + d.partials.Keys)
  }

  // ---------------------------------------------------------------- publishing one file

  /** The disk after the first `k` of the six steps of publishing `doc` as `name`: create the
      partial file, write it, sync it, link it, unlink the partial, sync the directory. */
  function WriteAt<N, D>(d: Disk<N, D>, name: N, doc: D, temporary: nat, k: nat): Disk<N, D>
    requires k <= 6
  {
    match k
    case 0 => d
    case 1 => CreatePartial(d, temporary)
    case 2 => FillPartial(WriteAt(d, name, doc, temporary, 1), temporary, doc)
    case 3 => SyncPartial(WriteAt(d, name, doc, temporary, 2), temporary)
    case 4 => LinkPartial(WriteAt(d, name, doc, temporary, 3), temporary, name)
    case 5 => UnlinkPartial(WriteAt(d, name, doc, temporary, 4), temporary)
    case 6 => SyncDirectory(WriteAt(d, name, doc, temporary, 5))
  }

  function CreatePartial<N, D>(d: Disk<N, D>, temporary: nat): Disk<N, D> {
    d.(partials := d.partials[temporary := File(Torn, false)])
  }

  function FillPartial<N, D>(d: Disk<N, D>, temporary: nat, doc: D): Disk<N, D> {
    d.(partials := d.partials[temporary := File(Whole(doc), false)])
  }

  function SyncPartial<N, D>(d: Disk<N, D>, temporary: nat): Disk<N, D> {
    if temporary in d.partials then
      d.(partials := d.partials[temporary := d.partials[temporary].(synced := true)])
    else d
  }

  function LinkPartial<N, D>(d: Disk<N, D>, temporary: nat, name: N): Disk<N, D> {
    if temporary in d.partials then d.(files := d.files[name := d.partials[temporary]]) else d
  }

  function UnlinkPartial<N, D>(d: Disk<N, D>, temporary: nat): Disk<N, D> {
    d.(partials := d.partials - {temporary}, removed := d.removed + {temporary})
  }

  function SyncDirectory<N, D>(d: Disk<N, D>): Disk<N, D> {
    d.(durable := d.files.Keys, durablePartials := d.partials.Keys, removed := {})
  }

  /** The disk after `k` steps, field by field. */
  ghost predicate Stepped<N, D>(d: Disk<N, D>, e: Disk<N, D>, name: N, doc: D, temporary: nat, k: nat) {
    && e.files == (if k <= 3 then d.files else d.files[name := File(Whole(doc), true)])
    && e.durable == (if k == 6 then e.files.Keys else d.durable)
    && e.partials == (if 1 <= k <= 4 then map[temporary := File(if k == 1 then Torn else Whole(doc), k >= 3)] else map[])
  }

  lemma {:induction false} Steps<N, D>(d: Disk<N, D>, name: N, doc: D, temporary: nat, k: nat)
    requires k <= 6 && d.partials == map[]
    ensures Stepped(d, WriteAt(d, name, doc, temporary, k), name, doc, temporary, k)
  {
    if k > 1 {
      Steps(d, name, doc, temporary, k - 1);
    }
  }

  lemma SteppedDocs<N, D>(d: Disk<N, D>, e: Disk<N, D>, name: N, doc: D, temporary: nat, k: nat)
    requires Ready(d) && name !in d.files && k <= 6 && Stepped(d, e, name, doc, temporary, k)
    ensures Sound(e)
    ensures Docs(e) == if k <= 3 then Docs(d) else Docs(d)[name := doc]
    ensures Ready(e) <==> k == 0 || k >= 5
    ensures k == 6 ==> Settled(e)
  {
    assert 1 <= k <= 4 ==> temporary in e.partials;
  }

  /** Killing the process after `k` steps: the name appears only at the fourth step, and until
      the fifth the partial file is there to be refused. */
  lemma KilledAt<N, D>(d: Disk<N, D>, name: N, doc: D, temporary: nat, k: nat)
    requires Ready(d) && name !in d.files && k <= 6
    ensures var e := WriteAt(d, name, doc, temporary, k);
            Sound(e)
            && d.durable <= e.durable
            && Docs(e) == (if k <= 3 then Docs(d) else Docs(d)[name := doc])
            && (Ready(e) <==> k == 0 || k >= 5)
            && (k == 6 ==> Settled(e))
  {
    Steps(d, name, doc, temporary, k);
    SteppedDocs(d, WriteAt(d, name, doc, temporary, k), name, doc, temporary, k);
  }

  /** The crash of `d` in which `kept` survives. */
  function Rewind<N, D>(d: Disk<N, D>, kept: set<N>): Disk<N, D> {
    Disk(map n | n in kept && n in d.files :: d.files[n], kept, d.partials, d.partials.Keys, {})
  }

  lemma RewindIsCrash<N, D>(d: Disk<N, D>, kept: set<N>)
    requires Sound(d) && d.durable <= kept <= d.files.Keys
    ensures var c := Rewind(d, kept);
            Crash(d, c) && Sound(c) && Docs(c) == map n | n in kept :: Docs(d)[n]
  {
    assert Rewind(d, kept).files.Keys == kept;
  }

  /** A name survives every power loss exactly when it is durable. */
  lemma DurableExactly<N, D>(d: Disk<N, D>, name: N)
    requires Sound(d) && name in d.files
    ensures name in d.durable <==> forall e :: Crash(d, e) ==> name in e.files
  {
    if name !in d.durable {
      var kept := d.files.Keys - {name};
      RewindIsCrash(d, kept);
      assert name !in Rewind(d, kept).files;
    }
  }

  /** What survives of the names depends on no partial file. */
  lemma CrashAfterReview<N, D>(d: Disk<N, D>, e: Disk<N, D>) returns (c: Disk<N, D>)
    requires Sound(d) && Crash(Review(d), e)
    ensures Crash(d, c) && Sound(c) && Sound(e) && Docs(c) == Docs(e)
  {
    CrashDocs(Review(d), e);
    RewindIsCrash(d, e.files.Keys);
    c := Rewind(d, e.files.Keys);
    assert Docs(c).Keys == Docs(e).Keys;
  }

  lemma CrashedDocs<N, D>(d: Disk<N, D>, w: Disk<N, D>, name: N, doc: D, e: Disk<N, D>)
    requires Sound(d) && name !in d.files && Sound(w) && d.durable <= w.durable && Crash(w, e)
    requires Docs(w) == Docs(d) || Docs(w) == Docs(d)[name := doc]
    ensures Sound(e) && d.durable <= Docs(e).Keys - {name} <= d.files.Keys
    ensures var c := Rewind(d, Docs(e).Keys - {name});
            Sound(c) && Crash(d, c) && Docs(e) == if name in Docs(e) then Docs(c)[name := doc] else Docs(c)
  {
    CrashDocs(w, e);
    var kept := Docs(e).Keys - {name};
    RewindIsCrash(d, kept);
    var before, after := Docs(Rewind(d, kept)), Docs(e);
    assert before.Keys == kept;
    forall n | n in kept ensures after[n] == before[n] {
      assert after[n] == Docs(w)[n] == Docs(d)[n];
    }
    if name in after {
      assert after[name] == Docs(w)[name] == doc;
      assert after.Keys == kept + {name};
    } else {
      assert after.Keys == kept;
    }
  }

  /** Power loss after any number of steps: the documents are those of some crash just before
      the write, with or without the new one. A named file is never partial or replaced. */
  lemma CrashIsAtomic<N, D>(d: Disk<N, D>, name: N, doc: D, temporary: nat, k: nat, e: Disk<N, D>)
    returns (c: Disk<N, D>)
    requires Ready(d) && name !in d.files && k <= 6
    requires Crash(WriteAt(d, name, doc, temporary, k), e)
    ensures Sound(e) && Crash(d, c) && Sound(c)
    ensures Docs(e) == Docs(c) || (k >= 4 && Docs(e) == Docs(c)[name := doc])
    ensures k == 6 ==> Docs(e) == Docs(d)[name := doc]
  {
    var w := WriteAt(d, name, doc, temporary, k);
    KilledAt(d, name, doc, temporary, k);
    CrashedDocs(d, w, name, doc, e);
    CrashDocs(w, e);
    c := Rewind(d, Docs(e).Keys - {name});
  }

  // ---------------------------------------------------------------- the write method

  datatype WriteOutcome = Written | NameTaken | Killed

  class Store<N(==), D> {
    var disk: Disk<N, D>

    constructor (disk: Disk<N, D>)
      ensures this.disk == disk
    {
      this.disk := disk;
    }

    /** `write`: the process may be killed, or an operation fail, before any of the steps. A
        taken name makes the link fail and leaves the partial file behind. */
    method Write(name: N, doc: D) returns (outcome: WriteOutcome, ghost temporary: nat, ghost steps: nat)
      requires Ready(disk)
      modifies this
      ensures steps <= 6 && disk == WriteAt(old(disk), name, doc, temporary, steps)
      ensures name in old(disk).files ==> steps <= 3 && outcome != Written
      ensures outcome == Written ==> steps == 6
      ensures outcome == NameTaken ==> steps == 3 && name in old(disk).files
    {
      var id: nat :| true;
      temporary, steps := id, 0;
      if * {
        return Killed, temporary, steps;
      }
      disk, steps := CreatePartial(disk, id), 1;
      assert disk == WriteAt(old(disk), name, doc, id, 1);
      if * {
        return Killed, temporary, steps;
      }
      disk, steps := FillPartial(disk, id, doc), 2;
      assert disk == WriteAt(old(disk), name, doc, id, 2);
      if * {
        return Killed, temporary, steps;
      }
      disk, steps := SyncPartial(disk, id), 3;
      assert disk == WriteAt(old(disk), name, doc, id, 3);
      if * {
        return Killed, temporary, steps;
      }
      if name in disk.files {
        return NameTaken, temporary, steps;
      }
      disk, steps := LinkPartial(disk, id, name), 4;
      assert disk == WriteAt(old(disk), name, doc, id, 4);
      if * {
        return Killed, temporary, steps;
      }
      disk, steps := UnlinkPartial(disk, id), 5;
      assert disk == WriteAt(old(disk), name, doc, id, 5);
      if * {
        return Killed, temporary, steps;
      }
      disk, steps := SyncDirectory(disk), 6;
      assert disk == WriteAt(old(disk), name, doc, id, 6);
      if * {
        return Killed, temporary, steps;
      }
      outcome := Written;
    }
  }
}
