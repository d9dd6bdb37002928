/** The remote backup directory (the `REMOTE` program of scripts/rekey-backup-sync.py): what
    receivers, uploads and power loss may do to it, and what every run keeps. */
module BackupStore {
  import opened Outcomes

  /** A decoded receipt: the artifact's digest and everything else. */
  datatype Receipt = Receipt(sha256Hex: string, rest: string)

  /** JSON decoding and SHA-256, as arbitrary functions. */
  datatype Codec = Codec(parse: string -> Option<Receipt>, sha256: string -> string)

  const ARTIFACT := "snapshot.rkbackup"
  const RECEIPT := "receipt.json"
  const MAX_RECEIPT := 65536

  // ---------------------------------------------------------------- the directory

  /** A file and whether its contents are synced. */
  datatype Leaf = Leaf(bytes: string, synced: bool)

  /** An object or stage directory; `named` are the synced entries among its files. */
  datatype Folder = Folder(leaves: map<string, Leaf>, named: set<string>)

  /** The root's entries as processes see them and as they are on disk, the directories they
      lead to, and the stages whose upload is over. */
  datatype World = World(entries: map<string, nat>, durable: map<string, nat>, folders: map<nat, Folder>, closed: set<string>)

  /** Stages begin with a dot; objects, like the exports that `sync` does not skip, do not. */
  predicate IsStage(n: string) {
    |n| > 0 && n[0] == '.'
  }

  /** Exactly the two files, with the receipt naming the artifact's digest. */
  predicate Matches(c: Codec, f: Folder, r: Receipt) {
    && f.leaves.Keys == {ARTIFACT, RECEIPT} && |f.leaves[RECEIPT].bytes| <= MAX_RECEIPT
    && c.parse(f.leaves[RECEIPT].bytes) == Some(r) && c.sha256(f.leaves[ARTIFACT].bytes) == r.sha256Hex
  }

  predicate Complete(c: Codec, f: Folder) {
    && RECEIPT in f.leaves && c.parse(f.leaves[RECEIPT].bytes).Some?
    && Matches(c, f, c.parse(f.leaves[RECEIPT].bytes).value)
  }

  predicate Synced(f: Folder) {
    f.named == f.leaves.Keys && forall l :: l in f.leaves ==> f.leaves[l].synced
  }

  /** The object is there, and durably, with this receipt and the artifact that it names. */
  predicate Verified(c: Codec, w: World, name: string, r: Receipt) {
    && name in w.entries && name in w.durable && w.durable[name] == w.entries[name]
    && w.entries[name] in w.folders && Synced(w.folders[w.entries[name]]) && Matches(c, w.folders[w.entries[name]], r)
  }

  // ---------------------------------------------------------------- actions

  datatype Action =
    | Mkdir(stage: string, ino: nat)
    | Put(stage: string, leaf: string, bytes: string)   // an upload writes a file of its stage
    | Close(stage: string)                              // its upload is over, and publishing begins
    | FlushLeaf(ino: nat, leaf: string)
    | FlushFolder(ino: nat)
    | FlushRoot
    | Rename(stage: string, name: string)

  /** When each action is taken. Renaming needs a complete, synced stage and a free name. */
  predicate Enabled(c: Codec, w: World, a: Action) {
    match a
    case Mkdir(s, ino) => IsStage(s) && s !in w.entries && s !in w.closed && ino !in w.folders
    case Put(s, _, _) => IsStage(s) && s in w.entries && s !in w.closed && w.entries[s] in w.folders
    case Close(s) => IsStage(s)
    case FlushLeaf(ino, l) => ino in w.folders && l in w.folders[ino].leaves
    case FlushFolder(ino) => ino in w.folders
    case FlushRoot => true
    case Rename(s, n) =>
      && IsStage(s) && !IsStage(n) && s in w.entries && n !in w.entries && s in w.closed
      && w.entries[s] in w.folders && Complete(c, w.folders[w.entries[s]]) && Synced(w.folders[w.entries[s]])
  }

  function Apply(c: Codec, w: World, a: Action): World
    requires Enabled(c, w, a)
  {
    match a
    case Mkdir(s, ino) => w.(entries := w.entries[s := ino], folders := w.folders[ino := Folder(map[], {})])
    case Put(s, l, bytes) =>
      var f := w.folders[w.entries[s]];
      w.(folders := w.folders[w.entries[s] := f.(leaves := f.leaves[l := Leaf(bytes, false)])])
    case Close(s) => w.(closed := w.closed + {s})
    case FlushLeaf(ino, l) =>
      var f := w.folders[ino];
      w.(folders := w.folders[ino := f.(leaves := f.leaves[l := f.leaves[l].(synced := true)])])
    case FlushFolder(ino) => w.(folders := w.folders[ino := w.folders[ino].(named := w.folders[ino].leaves.Keys)])
    case FlushRoot => w.(durable := w.entries)
    case Rename(s, n) => w.(entries := (w.entries - {s})[n := w.entries[s]])
  }

  /** What power loss may leave of a directory: any of the unsynced entries, and anything at all
      in a file that was not synced. */
  predicate FolderLoss(f: Folder, g: Folder) {
    && f.named * f.leaves.Keys <= g.leaves.Keys <= f.leaves.Keys && g.named == g.leaves.Keys
    && forall l :: l in g.leaves ==> g.leaves[l].synced && (f.leaves[l].synced ==> g.leaves[l].bytes == f.leaves[l].bytes)
  }

  /** What it may leave of an entry of the root: what is on disk or what was to be. */
  predicate EntryLoss(w: World, v: World, n: string) {
    && (n in v.entries ==> (n in w.entries && v.entries[n] == w.entries[n]) || (n in w.durable && v.entries[n] == w.durable[n]))
    && (n !in v.entries ==> n !in w.entries || n !in w.durable)
  }

  predicate PowerLoss(w: World, v: World) {
    && v.closed == w.closed && v.durable == v.entries
    && v.folders.Keys == w.folders.Keys && (forall i :: i in w.folders ==> FolderLoss(w.folders[i], v.folders[i]))
    && v.entries.Keys <= w.entries.Keys + w.durable.Keys
    && (forall n :: n in w.entries ==> EntryLoss(w, v, n)) && (forall n :: n in w.durable ==> EntryLoss(w, v, n))
  }

  // ---------------------------------------------------------------- the invariant

  /** Whether an entry, seen or on disk, leads from the name to the directory. */
  predicate Leads(w: World, n: string, ino: nat) {
    (n in w.entries && w.entries[n] == ino) || (n in w.durable && w.durable[n] == ino)
  }

  /** An object's directory is complete and synced, and any stage leading to it is closed. */
  ghost predicate Sealed(c: Codec, w: World, ino: nat) {
    && ino in w.folders && Complete(c, w.folders[ino]) && Synced(w.folders[ino])
    && forall s :: IsStage(s) && Leads(w, s, ino) ==> s in w.closed
  }

  ghost predicate Inv(c: Codec, w: World) {
    && (forall n, ino :: Leads(w, n, ino) ==> ino in w.folders)
    && (forall n, ino :: Leads(w, n, ino) && !IsStage(n) ==> Sealed(c, w, ino))
    && (forall n :: n in w.durable && !IsStage(n) ==> n in w.entries && w.entries[n] == w.durable[n])
    && (forall s, t, ino :: IsStage(s) && IsStage(t) && Leads(w, s, ino) && Leads(w, t, ino) ==> s == t)
    && (forall s :: IsStage(s) && s in w.durable && s !in w.entries ==> s in w.closed)
  }

  /** Only names and syncs change outside open stages. */
  lemma ActionKeeps(c: Codec, w: World, a: Action)
    requires Inv(c, w) && Enabled(c, w, a)
    ensures Inv(c, Apply(c, w, a))
  {
    match a
    case Mkdir(s, ino) => MkdirKeeps(c, w, s, ino);
    case Put(s, l, bytes) => PutKeeps(c, w, s, l, bytes);
    case Close(s) => CloseKeeps(c, w, s);
    case FlushLeaf(ino, l) => FlushLeafKeeps(c, w, ino, l);
    case FlushFolder(ino) => FlushFolderKeeps(c, w, ino);
    case FlushRoot => FlushRootKeeps(c, w);
    case Rename(s, n) => RenameKeeps(c, w, s, n);
  }

  lemma MkdirKeeps(c: Codec, w: World, s: string, ino: nat)
    requires Inv(c, w) && Enabled(c, w, Mkdir(s, ino))
    ensures Inv(c, Apply(c, w, Mkdir(s, ino)))
  {
    var v := Apply(c, w, Mkdir(s, ino));
    assert s !in w.durable;
    assert forall n, i :: Leads(v, n, i) <==> Leads(w, n, i) || (n == s && i == ino);
    forall n, i | Leads(v, n, i) && !IsStage(n) ensures Sealed(c, v, i) {
      assert Sealed(c, w, i);
    }
  }

  lemma PutKeeps(c: Codec, w: World, s: string, l: string, bytes: string)
    requires Inv(c, w) && Enabled(c, w, Put(s, l, bytes))
    ensures Inv(c, Apply(c, w, Put(s, l, bytes)))
  {
    var v := Apply(c, w, Put(s, l, bytes));
    assert Leads(w, s, w.entries[s]);
    assert forall n, i :: Leads(v, n, i) <==> Leads(w, n, i);
    forall n, i | Leads(v, n, i) && !IsStage(n) ensures Sealed(c, v, i) {
      assert Sealed(c, w, i);
    }
  }

  lemma CloseKeeps(c: Codec, w: World, s: string)
    requires Inv(c, w) && IsStage(s)
    ensures Inv(c, Apply(c, w, Close(s)))
  {
    var v := Apply(c, w, Close(s));
    assert forall n, i :: Leads(v, n, i) <==> Leads(w, n, i);
    forall n, i | Leads(v, n, i) && !IsStage(n) ensures Sealed(c, v, i) {
      assert Sealed(c, w, i);
    }
  }

  lemma FlushLeafKeeps(c: Codec, w: World, ino: nat, l: string)
    requires Inv(c, w) && Enabled(c, w, FlushLeaf(ino, l))
    ensures Inv(c, Apply(c, w, FlushLeaf(ino, l)))
  {
    var v := Apply(c, w, FlushLeaf(ino, l));
    assert forall n, i :: Leads(v, n, i) <==> Leads(w, n, i);
    forall n, i | Leads(v, n, i) && !IsStage(n) ensures Sealed(c, v, i) {
      assert Sealed(c, w, i);
      assert v.folders[i].leaves.Keys == w.folders[i].leaves.Keys;
    }
  }

  lemma FlushFolderKeeps(c: Codec, w: World, ino: nat)
    requires Inv(c, w) && Enabled(c, w, FlushFolder(ino))
    ensures Inv(c, Apply(c, w, FlushFolder(ino)))
  {
    var v := Apply(c, w, FlushFolder(ino));
    assert forall n, i :: Leads(v, n, i) <==> Leads(w, n, i);
    forall n, i | Leads(v, n, i) && !IsStage(n) ensures Sealed(c, v, i) {
      assert Sealed(c, w, i);
    }
  }

  lemma FlushRootKeeps(c: Codec, w: World)
    requires Inv(c, w)
    ensures Inv(c, Apply(c, w, FlushRoot))
  {
    var v := Apply(c, w, FlushRoot);
    assert forall n, i :: Leads(v, n, i) ==> Leads(w, n, i);
    forall n, i | Leads(v, n, i) && !IsStage(n) ensures Sealed(c, v, i) {
      assert Sealed(c, w, i);
    }
  }

  lemma RenameKeeps(c: Codec, w: World, s: string, n: string)
    requires Inv(c, w) && Enabled(c, w, Rename(s, n))
    ensures Inv(c, Apply(c, w, Rename(s, n)))
  {
    var v := Apply(c, w, Rename(s, n));
    var ino := w.entries[s];
    assert Leads(w, s, ino);
    assert forall m, i :: Leads(v, m, i) ==> Leads(w, m, i) || (m == n && i == ino);
    forall m, i | Leads(v, m, i) && !IsStage(m) ensures Sealed(c, v, i) {
      if m != n {
        assert Sealed(c, w, i);
      }
    }
  }

  lemma LossKeeps(c: Codec, w: World, v: World)
    requires Inv(c, w) && PowerLoss(w, v)
    ensures Inv(c, v)
  {
    forall n, i | Leads(v, n, i) ensures Leads(w, n, i) {
      assert n in w.entries || n in w.durable;
      assert EntryLoss(w, v, n);
    }
    forall n, i | Leads(v, n, i) && !IsStage(n) ensures Sealed(c, v, i) {
      SealedSurvives(c, w, v, i);
    }
  }

  lemma SealedSurvives(c: Codec, w: World, v: World, i: nat)
    requires Sealed(c, w, i) && PowerLoss(w, v) && forall n, i :: Leads(v, n, i) ==> Leads(w, n, i)
    ensures Sealed(c, v, i) && v.folders[i] == w.folders[i]
  {
    var f, g := w.folders[i], v.folders[i];
    assert FolderLoss(f, g);
    assert g.leaves.Keys == f.leaves.Keys;
    assert g.leaves == f.leaves;
  }

  // ---------------------------------------------------------------- every run

  ghost predicate Acted(c: Codec, w: World, v: World) {
    exists a :: Enabled(c, w, a) && v == Apply(c, w, a)
  }

  ghost predicate Step(c: Codec, w: World, v: World) {
    Acted(c, w, v) || PowerLoss(w, v)
  }

  ghost predicate StepAt(c: Codec, run: seq<World>, i: int)
    requires 0 <= i < |run| - 1
  {
    Step(c, run[i], run[i + 1])
  }

  /** Any number of receivers, uploads and power losses. */
  ghost predicate Steps(c: Codec, run: seq<World>) {
    |run| > 0 && forall i :: 0 <= i < |run| - 1 ==> StepAt(c, run, i)
  }

  /** A run of them from an empty root. */
  ghost predicate Run(c: Codec, run: seq<World>) {
    Steps(c, run) && run[0] == World(map[], map[], map[], {})
  }

  lemma {:induction false} StepsKeep(c: Codec, run: seq<World>, i: nat)
    requires Steps(c, run) && Inv(c, run[0]) && i < |run|
    ensures Inv(c, run[i])
  {
    if i > 0 {
      StepsKeep(c, run, i - 1);
      assert StepAt(c, run, i - 1);
      StepKeeps(c, run[i - 1], run[i]);
    }
  }

  lemma RunKeeps(c: Codec, run: seq<World>, i: nat)
    requires Run(c, run) && i < |run|
    ensures Inv(c, run[i])
  {
    StepsKeep(c, run, i);
  }

  lemma StepKeeps(c: Codec, w: World, v: World)
    requires Inv(c, w) && Step(c, w, v)
    ensures Inv(c, v)
  {
    if PowerLoss(w, v) {
      LossKeeps(c, w, v);
    } else {
      var a :| Enabled(c, w, a) && v == Apply(c, w, a);
      ActionKeeps(c, w, a);
    }
  }

  /** At every moment of every run, after any power loss, an object that is visible is complete
      and synced, and its artifact is the one that its receipt names. */
  lemma VisibleIsComplete(c: Codec, run: seq<World>, i: nat, name: string)
    requires Run(c, run) && i < |run| && name in run[i].entries && !IsStage(name)
    ensures run[i].entries[name] in run[i].folders
    ensures Complete(c, run[i].folders[run[i].entries[name]]) && Synced(run[i].folders[run[i].entries[name]])
  {
    RunKeeps(c, run, i);
    assert Leads(run[i], name, run[i].entries[name]);
  }

  /** The same directory with the same bytes. */
  predicate SameObject(w: World, v: World, name: string)
    requires name in w.entries && w.entries[name] in w.folders
  {
    name in v.entries && v.entries[name] == w.entries[name] && v.entries[name] in v.folders
    && v.folders[v.entries[name]] == w.folders[w.entries[name]]
  }

  /** No action takes an object away, replaces it or changes it. */
  lemma ActionKeepsObject(c: Codec, w: World, a: Action, name: string)
    requires Inv(c, w) && Enabled(c, w, a) && name in w.entries && !IsStage(name) && w.entries[name] in w.folders
    ensures SameObject(w, Apply(c, w, a), name)
  {
    assert Leads(w, name, w.entries[name]);
    assert Sealed(c, w, w.entries[name]);
    match a
    case Put(s, _, _) =>
      assert Leads(w, s, w.entries[s]);
    case FlushLeaf(ino, l) =>
      var f := w.folders[ino];
      assert f.leaves[l].synced ==> f.leaves[l := f.leaves[l].(synced := true)] == f.leaves;
    case _ =>
  }

  /** Nor does power loss, once its entry is on disk. */
  lemma LossKeepsObject(c: Codec, w: World, v: World, name: string)
    requires Inv(c, w) && PowerLoss(w, v) && name in w.durable && !IsStage(name)
    ensures name in w.entries && w.entries[name] in w.folders && SameObject(w, v, name)
    ensures name in v.durable && v.durable[name] == v.entries[name]
  {
    assert Leads(w, name, w.entries[name]);
    assert EntryLoss(w, v, name);
    LossKeeps(c, w, v);
    forall n, i | Leads(v, n, i) ensures Leads(w, n, i) {
      assert n in w.entries || n in w.durable;
      assert EntryLoss(w, v, n);
    }
    SealedSurvives(c, w, v, w.entries[name]);
  }

  lemma {:induction false} ObjectStays(c: Codec, run: seq<World>, i: nat, j: nat, name: string)
    requires Steps(c, run) && Inv(c, run[0]) && i <= j < |run| && name in run[i].entries && !IsStage(name)
    requires name in run[i].durable || forall k :: i <= k < j ==> Acted(c, run[k], run[k + 1])
    ensures run[i].entries[name] in run[i].folders && SameObject(run[i], run[j], name)
    ensures name in run[i].durable ==> name in run[j].durable && run[j].durable[name] == run[j].entries[name]
    decreases j
  {
    StepsKeep(c, run, i);
    assert Leads(run[i], name, run[i].entries[name]);
    if i < j {
      ObjectStays(c, run, i, j - 1, name);
      StepsKeep(c, run, j - 1);
      assert StepAt(c, run, j - 1);
      ObjectStep(c, run[j - 1], run[j], name);
    }
  }

  /** The first object published under a name stays, unaltered, through everything that any
      receiver does; only power loss before its entry is on disk can take it. */
  lemma FirstPublishedStays(c: Codec, run: seq<World>, i: nat, j: nat, name: string)
    requires Run(c, run) && i <= j < |run| && name in run[i].entries && !IsStage(name)
    requires name in run[i].durable || forall k :: i <= k < j ==> Acted(c, run[k], run[k + 1])
    ensures run[i].entries[name] in run[i].folders && SameObject(run[i], run[j], name)
    ensures name in run[i].durable ==> name in run[j].durable && run[j].durable[name] == run[j].entries[name]
  {
    ObjectStays(c, run, i, j, name);
  }

  lemma ObjectStep(c: Codec, w: World, v: World, name: string)
    requires Inv(c, w) && name in w.entries && !IsStage(name) && w.entries[name] in w.folders
    requires Acted(c, w, v) || (PowerLoss(w, v) && name in w.durable)
    ensures SameObject(w, v, name)
    ensures name in w.durable ==> name in v.durable && v.durable[name] == v.entries[name]
  {
    if Acted(c, w, v) {
      var a :| Enabled(c, w, a) && v == Apply(c, w, a);
      ActionKeepsObject(c, w, a, name);
    } else {
      LossKeepsObject(c, w, v, name);
    }
  }

  /** An object that was verified survives every later power loss, with the receipt that was
      expected and the artifact that it names. */
  lemma VerifiedSurvives(c: Codec, run: seq<World>, i: nat, j: nat, name: string, r: Receipt)
    requires Run(c, run) && i <= j < |run| && !IsStage(name) && Verified(c, run[i], name, r)
    ensures Verified(c, run[j], name, r)
  {
    FirstPublishedStays(c, run, i, j, name);
  }

  predicate SameBytes(f: Folder, g: Folder) {
    g.leaves.Keys == f.leaves.Keys && forall l :: l in f.leaves ==> g.leaves[l].bytes == f.leaves[l].bytes
  }

  /** What power loss right after a rename leaves visible is unharmed. */
  ghost predicate Unharmed(w: World, v: World, name: string)
    requires name in w.entries && w.entries[name] in w.folders
  {
    name in v.entries && v.entries[name] == w.entries[name] ==>
      v.entries[name] in v.folders && SameBytes(w.folders[w.entries[name]], v.folders[w.entries[name]])
  }

  /** Why the contents are synced before the rename: a stage may be made visible under a free name
      without risk of damage by power loss exactly when it is synced. */
  lemma SafeToRenameExactlyWhenSynced(w: World, stage: string, name: string)
    requires stage in w.entries && w.entries[stage] in w.folders && name !in w.entries && name !in w.durable
    requires w.folders[w.entries[stage]].named <= w.folders[w.entries[stage]].leaves.Keys
    ensures var r := w.(entries := (w.entries - {stage})[name := w.entries[stage]]);
            Synced(w.folders[w.entries[stage]]) <==> forall v :: PowerLoss(r, v) ==> Unharmed(r, v, name)
  {
    var ino := w.entries[stage];
    var f := w.folders[ino];
    var r := w.(entries := (w.entries - {stage})[name := ino]);
    if Synced(f) {
      forall v | PowerLoss(r, v) ensures Unharmed(r, v, name) {
        assert FolderLoss(f, v.folders[ino]);
      }
    } else {
      var g := Damaged(f);
      var v := World(r.entries, r.entries, map i | i in r.folders :: if i == ino then g else Settled(r.folders[i]), r.closed);
      assert PowerLoss(r, v);
      assert !Unharmed(r, v, name);
    }
  }

  function Settled(f: Folder): (g: Folder)
    ensures FolderLoss(f, g)
  {
    Folder(map l | l in f.leaves :: f.leaves[l].(synced := true), f.leaves.Keys)
  }

  lemma Damaged(f: Folder) returns (g: Folder)
    requires !Synced(f) && f.named <= f.leaves.Keys
    ensures FolderLoss(f, g) && !SameBytes(f, g)
  {
    if l :| l in f.leaves && !f.leaves[l].synced {
      g := Settled(f);
      g := g.(leaves := g.leaves[l := Leaf(f.leaves[l].bytes + "x", true)]);
      assert g.leaves[l].bytes != f.leaves[l].bytes;
    } else {
      assert !(f.leaves.Keys <= f.named);
      var l :| l in f.leaves && l !in f.named;
      g := Settled(f);
      g := Folder(g.leaves - {l}, g.named - {l});
    }
  }

  /** Two receivers that verify the same name expected the same receipt. */
  lemma VerifiersAgree(c: Codec, run: seq<World>, i: nat, j: nat, name: string, r: Receipt, q: Receipt)
    requires Run(c, run) && i <= j < |run| && !IsStage(name)
    requires Verified(c, run[i], name, r) && Verified(c, run[j], name, q)
    ensures r == q
  {
    VerifiedSurvives(c, run, i, j, name, r);
  }

  // ---------------------------------------------------------------- exactly when an object stays

  ghost predicate IsPath(c: Codec, run: seq<World>, w: World, v: World) {
    Steps(c, run) && run[0] == w && run[|run| - 1] == v
  }

  ghost predicate Reaches(c: Codec, w: World, v: World) {
    exists run :: IsPath(c, run, w, v)
  }

  lemma ReachesItself(c: Codec, w: World)
    ensures Reaches(c, w, w)
  {
    assert IsPath(c, [w], w, w);
  }

  lemma ReachesOn(c: Codec, w: World, u: World, v: World)
    requires Reaches(c, w, u) && Step(c, u, v)
    ensures Reaches(c, w, v)
  {
    var run :| IsPath(c, run, w, u);
    var more := run + [v];
    forall i | 0 <= i < |more| - 1 ensures StepAt(c, more, i) {
      assert i < |run| - 1 ==> StepAt(c, run, i);
    }
    assert IsPath(c, more, w, v);
  }

  /** The power loss in which only the root's entries on disk are left. */
  function Bare(w: World): World {
    World(w.durable, w.durable, map i | i in w.folders :: Settled(w.folders[i]), w.closed)
  }

  /** The visible object is there at `v`, as it is at `w`. */
  ghost predicate Stays(w: World, v: World, name: string)
    requires name in w.entries
  {
    w.entries[name] in w.folders && SameObject(w, v, name)
  }

  /** A visible object stays, whatever happens, exactly when its entry is on disk. */
  lemma PublishedStaysExactly(c: Codec, w: World, name: string)
    requires Inv(c, w) && name in w.entries && !IsStage(name)
    ensures name in w.durable <==> forall v :: Reaches(c, w, v) ==> Stays(w, v, name)
  {
    if name in w.durable {
      forall v | Reaches(c, w, v) ensures Stays(w, v, name) {
        var run :| IsPath(c, run, w, v);
        ObjectStays(c, run, 0, |run| - 1, name);
      }
    } else {
      ReachesItself(c, w);
      assert PowerLoss(w, Bare(w));
      ReachesOn(c, w, w, Bare(w));
      assert !Stays(w, Bare(w), name);
    }
  }

  /** The bytes of an object. */
  predicate IsObject(c: Codec, artifact: string, receipt: string) {
    && |receipt| <= MAX_RECEIPT && c.parse(receipt).Some? && c.sha256(artifact) == c.parse(receipt).value.sha256Hex
  }

  function ObjectOf(artifact: string, receipt: string): Folder {
    Folder(map[ARTIFACT := Leaf(artifact, true), RECEIPT := Leaf(receipt, true)], {ARTIFACT, RECEIPT})
  }

  ghost predicate Shows(w: World, name: string, f: Folder) {
    name in w.entries && w.entries[name] in w.folders && w.folders[w.entries[name]] == f
  }

  lemma Acts(c: Codec, w: World, u: World, a: Action) returns (v: World)
    requires Reaches(c, w, u) && Enabled(c, u, a)
    ensures v == Apply(c, u, a) && Reaches(c, w, v)
  {
    v := Apply(c, u, a);
    assert Acted(c, u, v);
    ReachesOn(c, w, u, v);
  }

  /** An upload of the two files. */
  lemma Uploads(c: Codec, w: World, u: World, stage: string, ino: nat, artifact: string, receipt: string) returns (v: World)
    requires Reaches(c, w, u) && IsStage(stage) && stage !in u.entries && stage !in u.closed && ino !in u.folders
    ensures Reaches(c, w, v) && v.entries == u.entries[stage := ino] && stage in v.closed && ino in v.folders
    ensures v.folders[ino].leaves == map[ARTIFACT := Leaf(artifact, false), RECEIPT := Leaf(receipt, false)]
  {
    v := Acts(c, w, u, Mkdir(stage, ino));
    v := Acts(c, w, v, Put(stage, ARTIFACT, artifact));
    v := Acts(c, w, v, Put(stage, RECEIPT, receipt));
    v := Acts(c, w, v, Close(stage));
  }

  /** The two files, and their entries, are synced. */
  lemma Flushes(c: Codec, w: World, u: World, ino: nat, artifact: string, receipt: string) returns (v: World)
    requires Reaches(c, w, u) && ino in u.folders
    requires u.folders[ino].leaves == map[ARTIFACT := Leaf(artifact, false), RECEIPT := Leaf(receipt, false)]
    ensures Reaches(c, w, v) && v.entries == u.entries && v.closed == u.closed
    ensures ino in v.folders && v.folders[ino] == ObjectOf(artifact, receipt)
  {
    v := Acts(c, w, u, FlushLeaf(ino, ARTIFACT));
    v := Acts(c, w, v, FlushLeaf(ino, RECEIPT));
    v := Acts(c, w, v, FlushFolder(ino));
  }

  /** A visible object whose entry is not on disk can be lost, and its name then be taken by any
      other object. */
  lemma AnotherTakesItsPlace(c: Codec, w: World, name: string, stage: string, ino: nat, artifact: string, receipt: string)
    returns (v: World)
    requires Inv(c, w) && name in w.entries && name !in w.durable && !IsStage(name) && IsObject(c, artifact, receipt)
    requires IsStage(stage) && stage !in w.durable && stage !in w.closed && ino !in w.folders
    ensures Reaches(c, w, v) && Shows(v, name, ObjectOf(artifact, receipt))
  {
    ReachesItself(c, w);
    assert PowerLoss(w, Bare(w));
    ReachesOn(c, w, w, Bare(w));
    var u := Uploads(c, w, Bare(w), stage, ino, artifact, receipt);
    u := Flushes(c, w, u, ino, artifact, receipt);
    v := Acts(c, w, u, Rename(stage, name));
  }
}
