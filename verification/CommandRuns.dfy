/** Exactly when power loss can make the command box of scripts/rekey-controlplane.py dispatch a
    command again. */
module CommandRuns {
  import opened CommandStore
  import CommandBox

  // ---------------------------------------------------------------- a command that is spent

  ghost predicate CanFire(d: Disk, id: string, t: Target, a: Artifact) {
    Stored(d, id, t, a) && GoodArtifact(a, t) && 0 < a.expiresAt
  }

  /** The two files of the command are such that a call can dispatch it. */
  ghost predicate Dispatchable(d: Disk, id: string) {
    exists t, a :: CanFire(d, id, t, a)
  }

  /** The command has an intent whose entry is synced; or its directory is there for good, without
      the files to dispatch it, so that it is neither dispatched nor published again. */
  ghost predicate Spent(d: Disk, id: string) {
    || (IntentFile(id) in d.files && d.files[IntentFile(id)].named)
    || (CommandDir(id) in d.dirs && d.dirs[CommandDir(id)] && !Dispatchable(d, id))
  }

  ghost predicate AllSpent(w: World) {
    forall i :: 0 <= i < |w.log| && w.log[i].Dispatch? ==> Spent(w.disk, w.log[i].command.id)
  }

  ghost predicate OnceSoFar(w: World) {
    Sound(w.disk) && Firm(w.disk) && NoRepeats(w.log) && AllSpent(w)
  }

  /** A file of a command whose directory was there is found, or will never be. */
  lemma SpentStays(d: Disk, e: Disk, id: string)
    requires Spent(d, id) && Grows(d, e) && NewCommands(d, e)
    ensures Spent(e, id)
  {
    forall t, a | CanFire(e, id, t, a) && CommandDir(id) in d.dirs ensures CanFire(d, id, t, a) {
      assert PolicyFile(id) in d.files && CommandFile(id) in d.files;
      assert Improves(d.files[PolicyFile(id)], e.files[PolicyFile(id)]);
      assert Improves(d.files[CommandFile(id)], e.files[CommandFile(id)]);
    }
  }

  lemma SpentSurvives(d: Disk, e: Disk, id: string)
    requires Sound(d) && Firm(d) && Spent(d, id) && PowerLoss(d, e)
    ensures Spent(e, id)
  {
    if IntentFile(id) in d.files && d.files[IntentFile(id)].named {
      assert Anchored(d, Holder(IntentFile(id)));
    } else {
      assert Anchored(d, CommandDir(id));
      forall t, a | CanFire(e, id, t, a) ensures CanFire(d, id, t, a) {
        assert Survives(d.files[PolicyFile(id)], e.files[PolicyFile(id)]);
        assert Survives(d.files[CommandFile(id)], e.files[CommandFile(id)]);
      }
    }
  }

  lemma FirmSurvives(d: Disk, e: Disk)
    requires Firm(d) && (PowerLoss(d, e) || Grows(d, e))
    ensures Firm(e)
  {
    assert Anchored(d, Nodes) && Anchored(d, Node) && Anchored(d, Commands);
  }

  /** A new dispatch is of a command that was not spent, and now is. */
  lemma CalledOnce(w: World, v: World, i: int)
    requires Called(w, v) && |w.log| <= i < |v.log| && v.log[i].Dispatch?
    ensures Spent(v.disk, v.log[i].command.id) && !Spent(w.disk, v.log[i].command.id)
  {
    assert SafeDispatch(w, v, i);
    var t, a :| GoodArtifact(a, t) && OnTime(a, t, v.log[i].checkedAt) && Stored(w.disk, v.log[i].command.id, t, a);
    assert CanFire(w.disk, v.log[i].command.id, t, a);
  }

  lemma CallKeepsOnce(w: World, v: World)
    requires OnceSoFar(w) && Called(w, v)
    ensures OnceSoFar(v)
  {
    FirmSurvives(w.disk, v.disk);
    forall i | 0 <= i < |v.log| && v.log[i].Dispatch? ensures Spent(v.disk, v.log[i].command.id) {
      if i < |w.log| {
        assert v.log[i] == w.log[i];
        SpentStays(w.disk, v.disk, w.log[i].command.id);
      } else {
        CalledOnce(w, v, i);
      }
    }
    forall i, j | 0 <= i < j < |v.log| && v.log[i].Dispatch? && v.log[j].Dispatch?
      ensures v.log[i].command.id != v.log[j].command.id
    {
      assert i < |w.log| ==> v.log[i] == w.log[i];
      if j < |w.log| {
        assert v.log[j] == w.log[j];
      } else {
        CalledOnce(w, v, j);
        assert SafeDispatch(w, v, j);
      }
    }
  }

  lemma LossKeepsOnce(w: World, v: World)
    requires OnceSoFar(w) && v.log == w.log && PowerLoss(w.disk, v.disk)
    ensures OnceSoFar(v)
  {
    FirmSurvives(w.disk, v.disk);
    forall i | 0 <= i < |v.log| && v.log[i].Dispatch? ensures Spent(v.disk, v.log[i].command.id) {
      SpentSurvives(w.disk, v.disk, w.log[i].command.id);
    }
  }

  lemma StepKeepsOnce(w: World, v: World)
    requires OnceSoFar(w) && Step(w, v)
    ensures OnceSoFar(v)
  {
    if Called(w, v) {
      CallKeepsOnce(w, v);
    } else {
      LossKeepsOnce(w, v);
    }
  }

  lemma StepOf(run: seq<World>, i: nat)
    requires Steps(run) && i < |run| - 1
    ensures Step(run[i], run[i + 1])
  {
    assert StepAt(run, i);
  }

  lemma {:induction false} StepsKeepOnce(run: seq<World>, i: nat)
    requires Steps(run) && i < |run| && OnceSoFar(run[0])
    ensures OnceSoFar(run[i])
  {
    if i > 0 {
      StepsKeepOnce(run, i - 1);
      StepOf(run, i - 1);
      StepKeepsOnce(run[i - 1], run[i]);
    }
  }

  // ---------------------------------------------------------------- how a command comes to be dispatched again

  /** Neither the command's intent nor anything that blocks the command is there. */
  ghost predicate Forgotten(d: Disk, id: string) {
    && Sound(d) && AllSynced(d) && IntentFile(id) !in d.files
    && (CommandDir(id) in d.dirs ==> Dispatchable(d, id))
  }

  /** The power loss that takes the intent, or the command's directory, if it is not synced, and
      nothing else. */
  function WithoutIntent(d: Disk, id: string): Disk {
    Disk(map x | x in d.dirs && (x == CommandDir(id) ==> d.dirs[x]) :: true,
         map p | p in d.files && p != IntentFile(id) :: File(d.files[p].data, true, true))
  }

  lemma IntentCanBeLost(d: Disk, id: string)
    requires Sound(d) && Firm(d) && !Spent(d, id)
    ensures PowerLoss(d, WithoutIntent(d, id)) && Forgotten(WithoutIntent(d, id), id)
  {
    var e := WithoutIntent(d, id);
    if CommandDir(id) in e.dirs {
      var t, a :| CanFire(d, id, t, a);
      assert CanFire(e, id, t, a);
    }
  }

  lemma CommandCanBeForgotten(d: Disk, id: string) returns (e: Disk)
    requires Sound(d) && (!Firm(d) || !Spent(d, id))
    ensures PowerLoss(d, e) && Forgotten(e, id)
  {
    if Firm(d) {
      IntentCanBeLost(d, id);
      e := WithoutIntent(d, id);
    } else {
      e := Wiped(d);
    }
  }

  lemma LossKeepsReceipts(w: World, v: World)
    requires GoodReceipts(w) && v.log == w.log && PowerLoss(w.disk, v.disk)
    ensures GoodReceipts(v)
  {
    forall id | ReceiptFile(id) in v.disk.files && v.disk.files[ReceiptFile(id)].data.Whole? ensures GoodReceipt(v, id) {
      assert Survives(w.disk.files[ReceiptFile(id)], v.disk.files[ReceiptFile(id)]);
      assert GoodReceipt(w, id);
    }
  }

  /** A directory that is missing is made, as opening does. */
  function EnsureDir(d: Disk, x: Dir): Disk {
    if x in d.dirs then d else AddDir(d, x)
  }

  function Opened(d: Disk): Disk {
    EnsureDir(EnsureDir(EnsureDir(EnsureDir(d, Nodes), Node), Commands), Receipts)
  }

  lemma AddDirSyncs(d: Disk, x: Dir)
    requires Sound(d) && AllSynced(d) && x !in d.dirs && x != Root && Present(d, Parent(x))
    ensures AllSynced(AddDir(d, x))
  {
  }

  ghost predicate OpensTo(d: Disk, e: Disk) {
    && Sound(e) && AllSynced(e) && Grows(d, e) && e.files.Keys == d.files.Keys
    && forall x: Dir :: x.CommandDir? ==> (x in e.dirs <==> x in d.dirs)
  }

  lemma EnsureDirKeeps(d: Disk, x: Dir)
    requires Sound(d) && AllSynced(d) && x != Root && !x.CommandDir? && Present(d, Parent(x))
    ensures OpensTo(d, EnsureDir(d, x)) && x in EnsureDir(d, x).dirs
  {
    if x !in d.dirs {
      AddDirKeeps(d, x);
      AddDirSyncs(d, x);
    }
  }

  lemma OpensToIsTransitive(d: Disk, e: Disk, f: Disk)
    requires OpensTo(d, e) && OpensTo(e, f)
    ensures OpensTo(d, f)
  {
    GrowsIsTransitive(d, e, f);
  }

  lemma OpenedKeeps(d: Disk)
    requires Sound(d) && AllSynced(d)
    ensures OpensTo(d, Opened(d)) && Commands in Opened(d).dirs
  {
    EnsureDirKeeps(d, Nodes);
    var one := EnsureDir(d, Nodes);
    EnsureDirKeeps(one, Node);
    var two := EnsureDir(one, Node);
    EnsureDirKeeps(two, Commands);
    var three := EnsureDir(two, Commands);
    EnsureDirKeeps(three, Receipts);
    OpensToIsTransitive(d, one, two);
    OpensToIsTransitive(d, two, three);
    OpensToIsTransitive(d, three, Opened(d));
  }

  /** The next call opens the box. */
  lemma OpensAgain(w: World, id: string) returns (v: World)
    requires Forgotten(w.disk, id) && GoodReceipts(w)
    ensures v == World(Opened(w.disk), w.log) && Called(w, v) && Forgotten(v.disk, id) && Commands in v.disk.dirs
  {
    v := World(Opened(w.disk), w.log);
    OpenedKeeps(w.disk);
    CommandBox.QuietIsCalled(w, v);
    if CommandDir(id) in v.disk.dirs {
      var t, a :| CanFire(w.disk, id, t, a);
      StoredStays(w.disk, v.disk, id, t, a);
      assert CanFire(v.disk, id, t, a);
    }
  }

  function Published(d: Disk, t: Target, id: string, a: Artifact): Disk {
    WriteAt(WriteAt(AddDir(d, CommandDir(id)), PolicyFile(id), PolicyDoc(a), 4), CommandFile(id), CommandDoc(Bindings(t, id, a)), 4)
  }

  lemma PublishedKeeps(d: Disk, t: Target, id: string, a: Artifact)
    requires Forgotten(d, id) && Commands in d.dirs && CommandDir(id) !in d.dirs
    ensures var e := Published(d, t, id, a);
            Sound(e) && Grows(d, e) && e.files.Keys == d.files.Keys + {PolicyFile(id), CommandFile(id)}
            && CommandDir(id) in e.dirs && e.dirs[CommandDir(id)] && Stored(e, id, t, a)
  {
    var made := AddDir(d, CommandDir(id));
    AddDirKeeps(d, CommandDir(id));
    AddTwoKeeps(made, id, PolicyDoc(a), CommandDoc(Bindings(t, id, a)));
    GrowsIsTransitive(d, made, Published(d, t, id, a));
  }

  /** The command is stored and can be dispatched. */
  ghost predicate IsReady(d: Disk, id: string, t: Target, a: Artifact) {
    && Sound(d) && IntentFile(id) !in d.files && CommandDir(id) in d.dirs && d.dirs[CommandDir(id)]
    && CanFire(d, id, t, a)
  }

  /** It publishes the command if its directory is gone. */
  lemma PublishesAgain(w: World, t: Target, id: string, a: Artifact) returns (v: World)
    requires Forgotten(w.disk, id) && GoodReceipts(w) && Commands in w.disk.dirs && CommandDir(id) !in w.disk.dirs
    requires GoodArtifact(a, t) && 0 < a.expiresAt
    ensures v == World(Published(w.disk, t, id, a), w.log) && Called(w, v) && IsReady(v.disk, id, t, a)
  {
    var e := Published(w.disk, t, id, a);
    v := World(e, w.log);
    PublishedKeeps(w.disk, t, id, a);
    CommandBox.ReceiptsKept(w, v);
  }

  lemma BecomesReady(w: World, id: string) returns (v: World, t: Target, a: Artifact)
    requires Forgotten(w.disk, id) && GoodReceipts(w) && Commands in w.disk.dirs
    ensures Called(w, v) && v.log == w.log && IsReady(v.disk, id, t, a)
  {
    if CommandDir(id) in w.disk.dirs {
      v := w;
      t, a :| CanFire(w.disk, id, t, a);
      CommandBox.QuietIsCalled(w, w);
    } else {
      t, a := Target("", "", "", "", "", "", "", 1, 1), Artifact(true, "", 1, 1, "");
      v := PublishesAgain(w, t, id, a);
    }
  }

  /** Once the command is stored, without an intent, it is dispatched. */
  lemma DispatchesAgain(w: World, t: Target, id: string, a: Artifact, s: Status, at: Times) returns (v: World)
    requires IsReady(w.disk, id, t, a) && GoodReceipts(w) && OnTime(a, t, at)
    ensures v.disk == WriteAt(w.disk, IntentFile(id), IntentDoc(Bindings(t, id, a)), 4) && Called(w, v)
    ensures v.log == w.log + [Preflight(t, s), Dispatch(Bindings(t, id, a), Whole(PolicyDoc(a)), at)]
  {
    v := World(WriteAt(w.disk, IntentFile(id), IntentDoc(Bindings(t, id, a)), 4),
               w.log + [Preflight(t, s), Dispatch(Bindings(t, id, a), Whole(PolicyDoc(a)), at)]);
    AddFileKeeps(w.disk, IntentFile(id), IntentDoc(Bindings(t, id, a)));
    CommandBox.ReceiptsKept(w, v);
    LaunchedIsCalled(w, v, t, id, a, at);
  }

  /** A target under which the artifact is in time. */
  lemma FiresInTime(d: Disk, id: string, t: Target, a: Artifact) returns (u: Target, at: Times)
    requires IsReady(d, id, t, a)
    ensures IsReady(d, id, u, a) && OnTime(a, u, at)
  {
    u, at := t.(maxLifetime := a.expiresAt, registrationExpiresAt := 1), Times(0, 0);
    assert Bindings(u, id, a) == Bindings(t, id, a);
  }

  ghost predicate IsPath(run: seq<World>, w: World, v: World) {
    Steps(run) && run[0] == w && run[|run| - 1] == v
  }

  /** Some sequence of calls and power losses leads from `w` to `v`. */
  ghost predicate Reaches(w: World, v: World) {
    exists run :: IsPath(run, w, v)
  }

  lemma ReachesItself(w: World)
    ensures Reaches(w, w)
  {
    assert IsPath([w], w, w);
  }

  lemma StepStays(run: seq<World>, v: World, i: int)
    requires 0 <= i < |run| - 1 && StepAt(run, i)
    ensures StepAt(run + [v], i)
  {
    assert (run + [v])[i] == run[i] && (run + [v])[i + 1] == run[i + 1];
  }

  lemma ReachesOn(w: World, u: World, v: World)
    requires Reaches(w, u) && Step(u, v)
    ensures Reaches(w, v)
  {
    var run :| IsPath(run, w, u);
    var more := run + [v];
    forall i | 0 <= i < |more| - 1 ensures StepAt(more, i) {
      if i < |run| - 1 {
        StepStays(run, v, i);
      }
    }
    assert IsPath(more, w, v);
  }

  /** The calls after the power loss: one opens the box, one publishes the command if it must, and
      one dispatches it. */
  lemma ForgottenIsDispatched(w: World, u: World, id: string) returns (v: World)
    requires Reaches(w, u) && Forgotten(u.disk, id) && GoodReceipts(u)
    ensures Reaches(w, v) && u.log <= v.log && DispatchedAt(v.log, |u.log| + 1, id)
  {
    var again := OpensAgain(u, id);
    ReachesOn(w, u, again);
    var ready, t, a := BecomesReady(again, id);
    ReachesOn(w, again, ready);
    var inTime, at := FiresInTime(ready.disk, id, t, a);
    var s: Status :| true;
    v := DispatchesAgain(ready, inTime, id, a, s, at);
    ReachesOn(w, ready, v);
  }

  /** A command that was dispatched, and is not spent or stands in a box that is not synced, can be
      dispatched again. */
  lemma UnspentRepeats(w: World, n: nat) returns (v: World)
    requires Sound(w.disk) && GoodReceipts(w) && n < |w.log| && w.log[n].Dispatch?
    requires !Firm(w.disk) || !Spent(w.disk, w.log[n].command.id)
    ensures Reaches(w, v) && !NoRepeats(v.log)
  {
    var id := w.log[n].command.id;
    var e := CommandCanBeForgotten(w.disk, id);
    var lost := World(e, w.log);
    LossKeepsReceipts(w, lost);
    ReachesItself(w);
    ReachesOn(w, w, lost);
    v := ForgottenIsDispatched(w, lost, id);
    assert v.log[n] == w.log[n];
  }

  // ---------------------------------------------------------------- exactly when it cannot

  lemma OnceFromHere(w: World)
    requires Sound(w.disk) && GoodReceipts(w) && NoRepeats(w.log) && !NoDispatch(w.log, 0)
    ensures Firm(w.disk) && AllSpent(w) <==> forall v :: Reaches(w, v) ==> NoRepeats(v.log)
  {
    if Firm(w.disk) && AllSpent(w) {
      forall v | Reaches(w, v) ensures NoRepeats(v.log) {
        var run :| IsPath(run, w, v);
        StepsKeepOnce(run, |run| - 1);
      }
    } else {
      var n :| 0 <= n < |w.log| && w.log[n].Dispatch? && (!Firm(w.disk) || !Spent(w.disk, w.log[n].command.id));
      var v := UnspentRepeats(w, n);
    }
  }

  lemma RunIsSound(run: seq<World>, i: nat)
    requires Run(run) && i < |run|
    ensures Sound(run[i].disk)
  {
    if i > 0 {
      assert StepAt(run, i - 1);
    }
  }

  /** Once a command was dispatched, and none twice so far, no sequence of calls and power losses
      dispatches one twice exactly when the box's directories down to the commands are synced and
      every dispatched command is spent. */
  lemma DispatchedOnceExactly(run: seq<World>)
    requires Run(run) && NoRepeats(run[|run| - 1].log) && !NoDispatch(run[|run| - 1].log, 0)
    ensures var w := run[|run| - 1]; Firm(w.disk) && AllSpent(w) <==> forall v :: Reaches(w, v) ==> NoRepeats(v.log)
  {
    RunIsSound(run, |run| - 1);
    ReceiptsStayGood(run, |run| - 1);
    OnceFromHere(run[|run| - 1]);
  }
}
