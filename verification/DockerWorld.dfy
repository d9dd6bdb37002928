/** What the Docker HA controller (scripts/rekey-docker-ha.py) acts on: containers, volumes,
    replica files and `cluster.json`; and what every run of it keeps. */
module DockerWorld {
  import opened Outcomes

  // ---------------------------------------------------------------- state

  datatype Broker = Off | Locked | Unlocked

  datatype Container = Container(volume: string, running: bool, broker: Broker)

  /** A volume's vault: none, a copy cut short, or the writes that it holds. */
  datatype Data = NoVault | Partial | Vault(writes: set<string>)

  datatype Node = Node(id: string, volume: string)

  datatype Receipt = Receipt(sha256Hex: string, outputPath: string)

  /** A replica's snapshot, and the receipt beside it. */
  datatype Path = Snapshot(name: string) | ReceiptOf(name: string)

  datatype Content = Bytes(sha256Hex: string) | ReceiptText(receipt: Receipt) | CutShort

  datatype Stored = Stored(content: Content, synced: bool)

  datatype Pointer = Pointer(container: string, receipt: Receipt)

  datatype Phase = Creating | Ready | Fencing

  /** `cluster.json`. */
  datatype Cluster = Cluster(phase: Phase, primary: Option<Node>, standby: Option<Node>, generation: nat,
                             replica: Option<Pointer>, volumes: set<string>)

  /** What a Docker command does once the daemon carries it out. */
  datatype Effect =
    | RunNode(id: string, volume: string)
    | Init(id: string)
    | Serve(id: string)
    | Unlock(id: string)
    | RemoveContainer(id: string)
    | CopyState(from: string, to: string)
    | PutFile(id: string, path: Path, content: Content)
    | SyncFile(id: string, path: Path)
    | RemoveFile(id: string, path: Path)

  /** `pending` holds the commands sent and not carried out: one whose caller gave up may still
      be carried out later. Once some broker was to be started, `host` is the only container that
      may run one and `home` its volume; `used` are all container identities so far. */
  datatype World = World(containers: map<string, Container>, volumes: map<string, Data>, files: map<(string, Path), Stored>,
                         acked: set<string>, saved: Cluster, pending: set<Effect>,
                         hosted: bool, host: string, home: string, used: set<string>, promotions: nat)

  // ---------------------------------------------------------------- commands

  predicate Running(w: World, id: string) {
    id in w.containers && w.containers[id].running
  }

  predicate HasVault(w: World, volume: string) {
    volume in w.volumes && w.volumes[volume].Vault?
  }

  predicate IsEmpty(w: World, volume: string) {
    volume in w.volumes && w.volumes[volume].NoVault?
  }

  /** Whether the daemon can carry the command out. */
  predicate Applies(w: World, e: Effect) {
    match e
    case RunNode(id, _) => id !in w.containers
    case Init(id) => Running(w, id) && IsEmpty(w, w.containers[id].volume)
    case Serve(id) => Running(w, id) && w.containers[id].broker.Off? && HasVault(w, w.containers[id].volume)
    case Unlock(id) => Running(w, id) && !w.containers[id].broker.Off?
    case RemoveContainer(id) => id in w.containers
    case CopyState(from, to) => HasVault(w, from) && IsEmpty(w, to)
    case PutFile(id, path, _) => Running(w, id) && (id, path) !in w.files
    case SyncFile(id, path) => Running(w, id) && (id, path) in w.files
    case RemoveFile(id, path) => Running(w, id) && (id, path) in w.files
  }

  /** The world once it has; `cut` says that a copy or a file was cut short. */
  function Landed(w: World, e: Effect, cut: bool): World {
    var u := w.(pending := w.pending - {e});
    if !Applies(w, e) then u else
      match e
      case RunNode(id, v) => u.(containers := w.containers[id := Container(v, true, Off)])
      case Init(id) => u.(volumes := w.volumes[w.containers[id].volume := Vault({})])
      case Serve(id) => u.(containers := w.containers[id := w.containers[id].(broker := Locked)])
      case Unlock(id) => u.(containers := w.containers[id := w.containers[id].(broker := Unlocked)])
      case RemoveContainer(id) => u.(containers := w.containers - {id})
      case CopyState(from, to) => u.(volumes := w.volumes[to := if cut then Partial else w.volumes[from]])
      case PutFile(id, path, content) => u.(files := w.files[(id, path) := Stored(if cut then CutShort else content, false)])
      case SyncFile(id, path) => u.(files := w.files[(id, path) := w.files[(id, path)].(synced := true)])
      case RemoveFile(id, path) => u.(files := w.files - {(id, path)})
  }

  // ---------------------------------------------------------------- the invariant

  /** The container runs a broker, or may still be told to. */
  predicate IsHost(w: World, id: string) {
    id in w.containers && (!w.containers[id].broker.Off? || Serve(id) in w.pending)
  }

  ghost predicate NoHost(w: World) {
    forall id :: !IsHost(w, id)
  }

  /** The identity is taken and no command is left that would make a container of it. */
  ghost predicate Taken(w: World, id: string) {
    id in w.used && forall v :: RunNode(id, v) !in w.pending
  }

  /** The volume holds every write that was acknowledged. */
  predicate HoldsAll(w: World, volume: string) {
    HasVault(w, volume) && w.acked <= w.volumes[volume].writes
  }

  ghost predicate IsNode(w: World, n: Node) {
    Taken(w, n.id) && (n.id in w.containers ==> w.containers[n.id].volume == n.volume)
  }

  /** What a cluster in phase `ready` promises. */
  ghost predicate ReadyFor(w: World, s: Cluster) {
    && s.primary.Some? && s.standby.Some?
    && s.primary.value.id != s.standby.value.id && s.primary.value.volume != s.standby.value.volume
    && IsNode(w, s.primary.value) && IsNode(w, s.standby.value)
    && w.hosted && s.primary.value.id == w.host && s.primary.value.volume == w.home && HoldsAll(w, w.home)
    && s.generation == 1 + w.promotions
  }

  /** The replica's snapshot and receipt are there, complete and synced, and nothing will remove
      them. */
  predicate Replicated(w: World, p: Pointer) {
    var snapshot, receipt := Snapshot(p.receipt.outputPath), ReceiptOf(p.receipt.outputPath);
    && (p.container, snapshot) in w.files && w.files[(p.container, snapshot)] == Stored(Bytes(p.receipt.sha256Hex), true)
    && (p.container, receipt) in w.files && w.files[(p.container, receipt)] == Stored(ReceiptText(p.receipt), true)
    && RemoveFile(p.container, snapshot) !in w.pending && RemoveFile(p.container, receipt) !in w.pending
  }

  ghost predicate Inv(w: World) {
    && (forall id :: id in w.containers ==> id in w.used)
    && (forall id, v :: RunNode(id, v) in w.pending ==> id in w.used && id !in w.containers)
    && (forall id, v, u :: RunNode(id, v) in w.pending && RunNode(id, u) in w.pending ==> v == u)
    && (forall id :: Serve(id) in w.pending ==> Taken(w, id))
    && (forall id :: IsHost(w, id) ==> id == w.host && w.containers[id].volume == w.home)
    && (w.hosted ==> Taken(w, w.host))
    && (if w.hosted then HoldsAll(w, w.home) else NoHost(w) && w.acked == {} && w.saved.phase.Creating?)
    && (w.saved.phase.Ready? ==> ReadyFor(w, w.saved))
    && (w.saved.replica.Some? ==> Replicated(w, w.saved.replica.value))
  }

  // ---------------------------------------------------------------- actions

  datatype Action =
    // the controller
    | Issue(effect: Effect)
    | Host(node: Node)                    // send the command that starts a node's broker
    | MakeVolume(volume: string)
    | Save(cluster: Cluster)
    | Publish(cluster: Cluster)           // the save that completes a promotion
    // the daemon, carrying out a command
    | Land(landing: Effect, cut: bool)
    // everyone else
    | Write(id: string, write: string)    // a client's write, acknowledged
    | Die(id: string)
    | StopBroker(id: string)
    | SetLock(id: string, locked: bool)
    | Attach(id: string, volume: string)  // a container that runs no broker
    | Detach(id: string)
    | LoseFile(id: string, path: Path, torn: bool)  // what was not synced, of a container that is not up

  /** When each action is taken. A broker may be started only when there is none and the
      one before it is gone, on a volume that holds every acknowledged write, and not in phase `ready`; a ready state may be saved
      only when it is true; a replica's files are removed only when no longer pointed to. */
  ghost predicate Enabled(w: World, a: Action) {
    match a
    case Issue(RunNode(id, _)) => id !in w.used
    case Issue(Serve(_)) => false
    case Issue(RemoveFile(id, path)) =>
      w.saved.replica.Some? ==> id != w.saved.replica.value.container
                                || path !in {Snapshot(w.saved.replica.value.receipt.outputPath), ReceiptOf(w.saved.replica.value.receipt.outputPath)}
    case Issue(_) => true
    case Host(n) =>
      && !w.saved.phase.Ready? && NoHost(w) && IsNode(w, n) && HoldsAll(w, n.volume)
      && (w.hosted ==> w.host !in w.containers)
    case MakeVolume(v) => v !in w.volumes
    case Save(s) =>
      && (s.phase.Ready? ==> ReadyFor(w, s)) && (s.replica.Some? ==> Replicated(w, s.replica.value))
      && (s.phase.Fencing? ==> !w.saved.phase.Creating?)
    case Publish(s) =>
      w.saved.phase.Fencing? && s.phase.Ready? && s.replica.None? && ReadyFor(w.(promotions := w.promotions + 1), s)
    case Land(e, _) => e in w.pending
    case Write(id, _) => Running(w, id) && w.containers[id].broker.Unlocked? && HasVault(w, w.containers[id].volume)
    case Die(id) => id in w.containers
    case StopBroker(id) => id in w.containers
    case SetLock(id, _) => id in w.containers && !w.containers[id].broker.Off?
    case Attach(id, _) => id !in w.used
    case Detach(id) => id in w.containers
    case LoseFile(id, path, _) => (id, path) in w.files && !w.files[(id, path)].synced && !Running(w, id)
  }

  function Apply(w: World, a: Action): World
    requires Enabled(w, a)
  {
    match a
    case Issue(RunNode(id, v)) => w.(pending := w.pending + {RunNode(id, v)}, used := w.used + {id})
    case Issue(e) => w.(pending := w.pending + {e})
    case Host(n) => w.(pending := w.pending + {Serve(n.id)}, hosted := true, host := n.id, home := n.volume)
    case MakeVolume(v) => w.(volumes := w.volumes[v := NoVault])
    case Save(s) => w.(saved := s)
    case Publish(s) => w.(saved := s, promotions := w.promotions + 1)
    case Land(e, cut) => Landed(w, e, cut)
    case Write(id, x) =>
      var v := w.containers[id].volume;
      w.(volumes := w.volumes[v := Vault(w.volumes[v].writes + {x})], acked := w.acked + {x})
    case Die(id) => w.(containers := w.containers[id := w.containers[id].(running := false, broker := Off)])
    case StopBroker(id) => w.(containers := w.containers[id := w.containers[id].(broker := Off)])
    case SetLock(id, locked) =>
      w.(containers := w.containers[id := w.containers[id].(broker := if locked then Locked else Unlocked)])
    case Attach(id, v) => w.(containers := w.containers[id := Container(v, true, Off)], used := w.used + {id})
    case Detach(id) => w.(containers := w.containers - {id})
    case LoseFile(id, path, torn) =>
      w.(files := if torn then w.files[(id, path) := Stored(CutShort, false)] else w.files - {(id, path)})
  }

  /** No container and no command is new, no broker can appear where none could, and neither a
      vault nor the replica in use is lost. */
  ghost predicate Settles(w: World, v: World) {
    && v.hosted == w.hosted && v.host == w.host && v.home == w.home && v.saved == w.saved && v.promotions == w.promotions && v.acked == w.acked
    && v.used == w.used && v.pending <= w.pending
    && (forall id :: id in v.containers ==> id in w.containers && v.containers[id].volume == w.containers[id].volume)
    && (forall id :: IsHost(v, id) ==> IsHost(w, id))
    && (HasVault(w, w.home) ==> HasVault(v, w.home) && w.volumes[w.home].writes <= v.volumes[w.home].writes)
    && (w.saved.replica.Some? && Replicated(w, w.saved.replica.value) ==> Replicated(v, w.saved.replica.value))
  }

  lemma SettlesKeeps(w: World, v: World)
    requires Inv(w) && Settles(w, v)
    ensures Inv(v)
  {
    assert forall id :: Taken(w, id) ==> Taken(v, id);
  }

  lemma RunNodeKeeps(w: World, id: string, volume: string)
    requires Inv(w) && RunNode(id, volume) in w.pending
    ensures Inv(Landed(w, RunNode(id, volume), false))
  {
    var v := Landed(w, RunNode(id, volume), false);
    assert !Taken(w, id);
    assert forall x :: Taken(w, x) ==> Taken(v, x);
    assert forall x :: IsHost(v, x) ==> IsHost(w, x);
  }

  lemma ContainerKeeps(w: World, e: Effect, cut: bool)
    requires Inv(w) && e in w.pending && (e.Serve? || e.Unlock? || e.RemoveContainer?)
    ensures Inv(Landed(w, e, cut))
  {
    var v := Landed(w, e, cut);
    assert forall id :: IsHost(v, id) ==> IsHost(w, id);
    SettlesKeeps(w, v);
  }

  lemma VolumeKeeps(w: World, e: Effect, cut: bool)
    requires Inv(w) && e in w.pending && (e.Init? || e.CopyState?)
    ensures Inv(Landed(w, e, cut))
  {
    var v := Landed(w, e, cut);
    assert v.containers == w.containers && v.files == w.files;
    assert forall id :: IsHost(v, id) ==> IsHost(w, id);
    SettlesKeeps(w, v);
  }

  lemma FileKeeps(w: World, e: Effect, cut: bool)
    requires Inv(w) && e in w.pending && (e.PutFile? || e.SyncFile? || e.RemoveFile?)
    ensures Inv(Landed(w, e, cut))
  {
    var v := Landed(w, e, cut);
    assert v.containers == w.containers && v.volumes == w.volumes;
    assert forall id :: IsHost(v, id) ==> IsHost(w, id);
    SettlesKeeps(w, v);
  }

  /** Carrying out a command, at any time, even after its caller gave up. */
  lemma LandedKeeps(w: World, e: Effect, cut: bool)
    requires Inv(w) && e in w.pending
    ensures Inv(Landed(w, e, cut))
  {
    if e.RunNode? {
      RunNodeKeeps(w, e.id, e.volume);
    } else if e.Serve? || e.Unlock? || e.RemoveContainer? {
      ContainerKeeps(w, e, cut);
    } else if e.Init? || e.CopyState? {
      VolumeKeeps(w, e, cut);
    } else {
      FileKeeps(w, e, cut);
    }
  }

  lemma WriteKeeps(w: World, id: string, x: string)
    requires Inv(w) && Enabled(w, Write(id, x))
    ensures Inv(Apply(w, Write(id, x)))
  {
    var v := Apply(w, Write(id, x));
    assert IsHost(w, id);
    assert forall i :: IsHost(v, i) ==> IsHost(w, i);
    assert forall i :: Taken(w, i) ==> Taken(v, i);
  }

  lemma IssueKeeps(w: World, e: Effect)
    requires Inv(w) && Enabled(w, Issue(e))
    ensures Inv(Apply(w, Issue(e)))
  {
    var v := Apply(w, Issue(e));
    assert forall i :: IsHost(v, i) ==> IsHost(w, i);
    assert forall i :: Taken(w, i) ==> Taken(v, i);
  }

  lemma HostKeeps(w: World, n: Node)
    requires Inv(w) && Enabled(w, Host(n))
    ensures Inv(Apply(w, Host(n)))
  {
    var v := Apply(w, Host(n));
    assert forall i :: IsHost(v, i) ==> i == n.id || IsHost(w, i);
    assert forall i :: Taken(w, i) ==> Taken(v, i);
  }

  lemma AttachKeeps(w: World, id: string, volume: string)
    requires Inv(w) && Enabled(w, Attach(id, volume))
    ensures Inv(Apply(w, Attach(id, volume)))
  {
    var v := Apply(w, Attach(id, volume));
    assert !Taken(w, id);
    assert forall i :: IsHost(v, i) ==> IsHost(w, i);
    assert forall i :: Taken(w, i) ==> Taken(v, i);
  }

  lemma SaveKeeps(w: World, a: Action)
    requires Inv(w) && Enabled(w, a) && (a.Save? || a.Publish?)
    ensures Inv(Apply(w, a))
  {
    var v := Apply(w, a);
    assert forall i :: IsHost(v, i) ==> IsHost(w, i);
    assert forall i :: Taken(w, i) <==> Taken(v, i);
  }

  lemma ActionKeeps(w: World, a: Action)
    requires Inv(w) && Enabled(w, a)
    ensures Inv(Apply(w, a))
  {
    match a
    case Issue(e) => IssueKeeps(w, e);
    case Host(n) => HostKeeps(w, n);
    case Save(_) => SaveKeeps(w, a);
    case Publish(_) => SaveKeeps(w, a);
    case Land(e, cut) => LandedKeeps(w, e, cut);
    case Write(id, x) => WriteKeeps(w, id, x);
    case Attach(id, volume) => AttachKeeps(w, id, volume);
    case LoseFile(id, path, torn) => LossKeeps(w, id, path, torn);
    case _ => OtherKeeps(w, a);
  }

  lemma LossKeeps(w: World, id: string, path: Path, torn: bool)
    requires Inv(w) && Enabled(w, LoseFile(id, path, torn))
    ensures Inv(Apply(w, LoseFile(id, path, torn)))
  {
    var v := Apply(w, LoseFile(id, path, torn));
    assert forall i :: IsHost(v, i) ==> IsHost(w, i);
    SettlesKeeps(w, v);
  }

  lemma OtherKeeps(w: World, a: Action)
    requires Inv(w) && Enabled(w, a) && (a.MakeVolume? || a.Die? || a.StopBroker? || a.SetLock? || a.Detach?)
    ensures Inv(Apply(w, a))
  {
    assert forall i :: IsHost(Apply(w, a), i) ==> IsHost(w, i);
    SettlesKeeps(w, Apply(w, a));
  }

  // ---------------------------------------------------------------- every run

  /** Before `create`: nothing is there. */
  ghost predicate Initial(w: World) {
    && w.containers == map[] && w.volumes == map[] && w.files == map[] && w.acked == {} && w.pending == {}
    && w.used == {} && !w.hosted && w.promotions == 0 && w.saved == Cluster(Creating, None, None, 1, None, {})
  }

  ghost predicate Step(w: World, v: World) {
    exists a :: Enabled(w, a) && v == Apply(w, a)
  }

  ghost predicate StepAt(run: seq<World>, i: int)
    requires 0 <= i < |run| - 1
  {
    Step(run[i], run[i + 1])
  }

  ghost predicate Run(run: seq<World>) {
    |run| > 0 && Initial(run[0]) && forall i :: 0 <= i < |run| - 1 ==> StepAt(run, i)
  }

  lemma {:induction false} RunKeeps(run: seq<World>, i: nat)
    requires Run(run) && i < |run|
    ensures Inv(run[i])
  {
    if i > 0 {
      RunKeeps(run, i - 1);
      assert StepAt(run, i - 1);
      var a :| Enabled(run[i - 1], a) && run[i] == Apply(run[i - 1], a);
      ActionKeeps(run[i - 1], a);
    }
  }

  lemma Extend(run: seq<World>, a: Action)
    requires Run(run) && Enabled(run[|run| - 1], a)
    ensures Run(run + [Apply(run[|run| - 1], a)])
  {
    var more := run + [Apply(run[|run| - 1], a)];
    forall i | 0 <= i < |more| - 1 ensures StepAt(more, i) {
      assert i < |run| - 1 ==> StepAt(run, i);
    }
  }

  /** In every reachable state at most one container runs a broker. */
  lemma AtMostOneBroker(run: seq<World>, i: nat, x: string, y: string)
    requires Run(run) && i < |run| && x in run[i].containers && y in run[i].containers
    requires !run[i].containers[x].broker.Off? && !run[i].containers[y].broker.Off?
    ensures x == y
  {
    RunKeeps(run, i);
    assert IsHost(run[i], x) && IsHost(run[i], y);
  }

  /** A broker that runs while the phase is `ready` is the recorded primary's, on its volume. */
  lemma BrokerIsPrimary(run: seq<World>, i: nat, x: string)
    requires Run(run) && i < |run| && run[i].saved.phase.Ready?
    requires x in run[i].containers && !run[i].containers[x].broker.Off?
    ensures run[i].saved.primary == Some(Node(x, run[i].containers[x].volume))
  {
    RunKeeps(run, i);
    assert IsHost(run[i], x);
  }

  lemma AckedGrow(w: World, a: Action)
    requires Enabled(w, a)
    ensures w.acked <= Apply(w, a).acked
  {
  }

  lemma {:induction false} AckedStay(run: seq<World>, i: nat, j: nat)
    requires Run(run) && i <= j < |run|
    ensures run[i].acked <= run[j].acked
    decreases j
  {
    if i < j {
      AckedStay(run, i, j - 1);
      assert StepAt(run, j - 1);
      var a :| Enabled(run[j - 1], a) && run[j] == Apply(run[j - 1], a);
      AckedGrow(run[j - 1], a);
    }
  }

  /** No acknowledged write is lost: each one is in the primary's volume at every later moment
      when the phase is `ready`, through any number of deaths and promotions. */
  lemma AcknowledgedWritesSurvive(run: seq<World>, i: nat, j: nat, x: string)
    requires Run(run) && i <= j < |run| && x in run[i].acked && run[j].saved.phase.Ready?
    ensures run[j].saved.primary.Some? && HasVault(run[j], run[j].saved.primary.value.volume)
    ensures x in run[j].volumes[run[j].saved.primary.value.volume].writes
  {
    AckedStay(run, i, j);
    RunKeeps(run, j);
  }

  /** In phase `ready` the two nodes and their volumes differ, and the generation is one more
      than the promotions completed. */
  lemma ReadyIsWellFormed(run: seq<World>, i: nat)
    requires Run(run) && i < |run| && run[i].saved.phase.Ready?
    ensures var s := run[i].saved;
            s.primary.Some? && s.standby.Some? && s.primary.value.id != s.standby.value.id
            && s.primary.value.volume != s.standby.value.volume && s.generation == 1 + run[i].promotions
  {
    RunKeeps(run, i);
  }

  /** A replica pointer in `cluster.json` always leads to a snapshot with the recorded digest and
      to its receipt, both synced on the recorded container. */
  lemma PointerIsVerified(run: seq<World>, i: nat)
    requires Run(run) && i < |run| && run[i].saved.replica.Some?
    ensures Replicated(run[i], run[i].saved.replica.value)
  {
    RunKeeps(run, i);
  }

  /** A container identity that is taken and gone stays so. */
  ghost predicate GoneFrom(w: World, id: string) {
    Taken(w, id) && id !in w.containers
  }

  lemma GoneFromLanded(w: World, e: Effect, cut: bool, id: string)
    requires e in w.pending && GoneFrom(w, id)
    ensures GoneFrom(Landed(w, e, cut), id)
  {
    assert e.RunNode? ==> e.id != id;
  }

  lemma GoneStays(w: World, a: Action, id: string)
    requires Inv(w) && Enabled(w, a) && GoneFrom(w, id)
    ensures GoneFrom(Apply(w, a), id)
  {
    if a.Land? {
      GoneFromLanded(w, a.landing, a.cut, id);
    }
  }

  /** When a broker's start is sent on another container than the one before, that one is gone. */
  lemma StartComesAfterTheFence(w: World, a: Action)
    requires Inv(w) && Enabled(w, a) && w.hosted && Apply(w, a).host != w.host
    ensures GoneFrom(w, w.host)
  {
  }

  /** Once the broker is to run on another container, the one it ran on is gone for good: it is
      never there to run a broker again. */
  lemma {:induction false} OldPrimaryStaysAway(run: seq<World>, i: nat, j: nat)
    requires Run(run) && i < j < |run| && run[i].hosted && run[i + 1].host != run[i].host
    ensures GoneFrom(run[j - 1], run[i].host) && GoneFrom(run[j], run[i].host)
    decreases j
  {
    RunKeeps(run, j - 1);
    assert StepAt(run, j - 1);
    var a :| Enabled(run[j - 1], a) && run[j] == Apply(run[j - 1], a);
    if i < j - 1 {
      OldPrimaryStaysAway(run, i, j - 1);
    } else {
      StartComesAfterTheFence(run[i], a);
    }
    GoneStays(run[j - 1], a, run[i].host);
  }
}
