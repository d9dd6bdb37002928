/** The controller of scripts/rekey-docker-ha.py: `create`, `replicate`, `promote` and `tick`,
    among client writes, deaths and commands that are carried out late. */
module DockerController {
  import opened DockerWorld
  import opened Outcomes

  // ---------------------------------------------------------------- what others may do

  predicate ByOthers(a: Action) {
    a.Land? || a.Write? || a.Die? || a.StopBroker? || a.SetLock? || a.Attach? || a.Detach? || a.LoseFile?
  }

  /** What no step changes except the start of a broker or the end of a promotion. */
  ghost predicate Stays(w: World, v: World) {
    && Lasts(w, v) && v.hosted == w.hosted && v.host == w.host && v.home == w.home && (NoHost(w) ==> NoHost(v) && v.acked == w.acked)
  }

  /** What the start of a broker does not change either. */
  ghost predicate Lasts(w: World, v: World) {
    && v.promotions == w.promotions && w.used <= v.used && w.volumes.Keys <= v.volumes.Keys
    && forall n :: IsNode(w, n) ==> IsNode(v, n)
  }

  /** What everyone else's steps leave alone. */
  ghost predicate Drifts(w: World, v: World) {
    && Stays(w, v) && v.saved == w.saved && v.pending <= w.pending
    && (forall id :: Taken(w, id) && id !in w.containers ==> id !in v.containers)
    && (forall vol :: HasVault(w, vol) ==> HasVault(v, vol) && w.volumes[vol].writes <= v.volumes[vol].writes)
    && (forall id :: Taken(w, id) && Running(v, id) ==> Running(w, id))
    && (forall id, path :: Lives(w, v, id, path) ==> Keeps(w, v, id, path))
  }

  /** Nothing may take the file: it is synced, or its container was up all along. */
  ghost predicate Lives(w: World, v: World, id: string, path: Path) {
    && (id, path) in w.files && RemoveFile(id, path) !in w.pending
    && (w.files[(id, path)].synced || (Taken(w, id) && Running(v, id)))
  }

  predicate Keeps(w: World, v: World, id: string, path: Path)
    requires (id, path) in w.files
  {
    && (id, path) in v.files && v.files[(id, path)].content == w.files[(id, path)].content
    && (w.files[(id, path)].synced ==> v.files[(id, path)].synced)
  }

  /** The file is complete and synced, and no command is left that would remove it. */
  predicate Holds(w: World, id: string, path: Path, content: Content) {
    (id, path) in w.files && w.files[(id, path)] == Stored(content, true) && RemoveFile(id, path) !in w.pending
  }

  ghost predicate HoldsOn(w: World, v: World) {
    && (forall id, path, content :: Holds(w, id, path, content) ==> Holds(v, id, path, content))
    && (forall id, path :: RemoveFile(id, path) !in w.pending ==> RemoveFile(id, path) !in v.pending)
  }

  lemma DriftsHoldsOn(w: World, v: World)
    requires Drifts(w, v)
    ensures HoldsOn(w, v)
  {
    forall id, path, content | Holds(w, id, path, content) ensures Holds(v, id, path, content) {
      assert Lives(w, v, id, path);
    }
  }

  lemma StaysIsTransitive(w: World, u: World, v: World)
    requires Stays(w, u) && Stays(u, v)
    ensures Stays(w, v)
  {
  }

  lemma TakenStays(w: World, v: World, id: string)
    requires Taken(w, id) && w.used <= v.used && v.pending <= w.pending
    ensures Taken(v, id)
  {
  }

  lemma DriftsIsTransitive(w: World, u: World, v: World)
    requires Drifts(w, u) && Drifts(u, v)
    ensures Drifts(w, v)
  {
    forall id | Taken(w, id) ensures Taken(u, id) && (id !in w.containers ==> id !in v.containers) {
      TakenStays(w, u, id);
    }
    forall id | Taken(w, id) && Running(v, id) ensures Running(u, id) && Running(w, id) {
      TakenStays(w, u, id);
    }
    forall id, path | Lives(w, v, id, path) ensures Keeps(w, v, id, path) {
      assert Taken(w, id) && Running(v, id) ==> Running(u, id) && Taken(u, id);
      assert Lives(w, u, id, path) && Keeps(w, u, id, path) && Lives(u, v, id, path);
    }
  }

  lemma RunNodeDrifts(w: World, id: string, volume: string)
    requires Inv(w) && RunNode(id, volume) in w.pending
    ensures Drifts(w, Landed(w, RunNode(id, volume), false))
  {
    var v := Landed(w, RunNode(id, volume), false);
    assert !Taken(w, id);
    assert forall i :: Taken(w, i) ==> Taken(v, i);
    assert forall i :: IsHost(v, i) ==> IsHost(w, i);
  }

  lemma BrokerDrifts(w: World, id: string, e: Effect)
    requires Inv(w) && e in w.pending && e in {Serve(id), Unlock(id)}
    ensures Drifts(w, Landed(w, e, false))
  {
    var v := Landed(w, e, false);
    assert forall i :: Taken(w, i) ==> Taken(v, i);
    assert forall i :: IsHost(v, i) ==> IsHost(w, i);
  }

  lemma RemovalDrifts(w: World, id: string)
    requires Inv(w) && RemoveContainer(id) in w.pending
    ensures Drifts(w, Landed(w, RemoveContainer(id), false))
  {
    var v := Landed(w, RemoveContainer(id), false);
    assert forall i :: Taken(w, i) ==> Taken(v, i);
    assert forall i :: IsHost(v, i) ==> IsHost(w, i);
  }

  lemma InitDrifts(w: World, id: string)
    requires Inv(w) && Init(id) in w.pending
    ensures Drifts(w, Landed(w, Init(id), false))
  {
    var v := Landed(w, Init(id), false);
    assert v.containers == w.containers;
    assert forall i :: Taken(w, i) ==> Taken(v, i);
    assert forall i :: IsHost(v, i) ==> IsHost(w, i);
  }

  lemma CopyDrifts(w: World, from: string, to: string, cut: bool)
    requires Inv(w) && CopyState(from, to) in w.pending
    ensures Drifts(w, Landed(w, CopyState(from, to), cut))
  {
    var v := Landed(w, CopyState(from, to), cut);
    assert v.containers == w.containers;
    assert forall i :: Taken(w, i) ==> Taken(v, i);
    assert forall i :: IsHost(v, i) ==> IsHost(w, i);
  }

  lemma FileDrifts(w: World, e: Effect, cut: bool)
    requires Inv(w) && e in w.pending && (e.PutFile? || e.SyncFile?)
    ensures Drifts(w, Landed(w, e, cut))
  {
    var v := Landed(w, e, cut);
    assert v.containers == w.containers && v.volumes == w.volumes;
    assert forall i :: Taken(w, i) ==> Taken(v, i);
    assert forall i :: IsHost(v, i) ==> IsHost(w, i);
  }

  lemma FileRemovalDrifts(w: World, id: string, path: Path)
    requires Inv(w) && RemoveFile(id, path) in w.pending
    ensures Drifts(w, Landed(w, RemoveFile(id, path), false))
  {
    var v := Landed(w, RemoveFile(id, path), false);
    assert v.containers == w.containers && v.volumes == w.volumes;
    assert forall i :: Taken(w, i) ==> Taken(v, i);
    assert forall i :: IsHost(v, i) ==> IsHost(w, i);
  }

  lemma LandDrifts(w: World, e: Effect, cut: bool)
    requires Inv(w) && e in w.pending
    ensures Drifts(w, Landed(w, e, cut))
  {
    match e
    case RunNode(id, volume) => RunNodeDrifts(w, id, volume);
    case Serve(id) => BrokerDrifts(w, id, e);
    case Unlock(id) => BrokerDrifts(w, id, e);
    case RemoveContainer(id) => RemovalDrifts(w, id);
    case Init(id) => InitDrifts(w, id);
    case CopyState(from, to) => CopyDrifts(w, from, to, cut);
    case RemoveFile(id, path) => FileRemovalDrifts(w, id, path);
    case _ => FileDrifts(w, e, cut);
  }

  lemma WriteDrifts(w: World, id: string, x: string)
    requires Inv(w) && Enabled(w, Write(id, x))
    ensures Drifts(w, Apply(w, Write(id, x)))
  {
    var v := Apply(w, Write(id, x));
    assert IsHost(w, id);
    assert forall i :: Taken(w, i) ==> Taken(v, i);
    assert forall i :: IsHost(v, i) ==> IsHost(w, i);
  }

  lemma ContainerDrifts(w: World, a: Action)
    requires Inv(w) && Enabled(w, a) && (a.Die? || a.StopBroker? || a.SetLock? || a.Detach?)
    ensures Drifts(w, Apply(w, a))
  {
    var v := Apply(w, a);
    assert forall i :: Taken(w, i) ==> Taken(v, i);
    assert forall i :: IsHost(v, i) ==> IsHost(w, i);
  }

  lemma AttachDrifts(w: World, id: string, volume: string)
    requires Inv(w) && Enabled(w, Attach(id, volume))
    ensures Drifts(w, Apply(w, Attach(id, volume)))
  {
    var v := Apply(w, Attach(id, volume));
    assert !Taken(w, id);
    assert forall i :: Taken(w, i) ==> Taken(v, i);
    assert forall i :: IsHost(v, i) ==> IsHost(w, i);
  }

  lemma LossDrifts(w: World, id: string, path: Path, torn: bool)
    requires Inv(w) && Enabled(w, LoseFile(id, path, torn))
    ensures Drifts(w, Apply(w, LoseFile(id, path, torn)))
  {
    var v := Apply(w, LoseFile(id, path, torn));
    assert forall i :: Taken(w, i) ==> Taken(v, i);
    assert forall i :: IsHost(v, i) ==> IsHost(w, i);
  }

  lemma OthersDrift(w: World, a: Action)
    requires Inv(w) && Enabled(w, a) && ByOthers(a)
    ensures Drifts(w, Apply(w, a))
  {
    if a.Land? {
      LandDrifts(w, a.landing, a.cut);
    } else if a.Write? {
      WriteDrifts(w, a.id, a.write);
    } else if a.LoseFile? {
      LossDrifts(w, a.id, a.path, a.torn);
    } else if a.Attach? {
      AttachDrifts(w, a.id, a.volume);
    } else {
      ContainerDrifts(w, a);
    }
  }

  /** The controller's own steps, the two exceptions apart. */
  lemma OwnStays(w: World, a: Action)
    requires Inv(w) && Enabled(w, a) && (a.Issue? || a.MakeVolume? || a.Save?)
    ensures Stays(w, Apply(w, a))
  {
    var v := Apply(w, a);
    assert a.Issue? && a.effect.RunNode? ==> !Taken(w, a.effect.id);
    assert forall i :: Taken(w, i) ==> Taken(v, i);
    assert forall i :: IsHost(v, i) ==> IsHost(w, i);
  }

  // ---------------------------------------------------------------- the controller

  /** What the controller found and did, as far as the order matters. */
  datatype Note =
    | FoundUnhealthy                  // a health check that returned false
    | ReplicationFailed
    | Promoting
    | Fenced(node: Node)              // absent, and its volume attached nowhere
    | Starting(node: Node)

  /** A promotion begins only right after a health check that returned false, and its broker is
      started only after the old primary was fenced. */
  ghost predicate Orderly(notes: seq<Note>) {
    && (forall i :: 0 <= i < |notes| && notes[i].Promoting? ==> i > 0 && notes[i - 1].FoundUnhealthy?)
    && (forall i :: 0 <= i < |notes| && notes[i].Starting? && i > 0 ==> notes[i - 1].Fenced? && notes[i - 1].node != notes[i].node)
  }

  /** The old volume is attached to no container, and the old primary is gone. */
  ghost predicate IsFenced(w: World, n: Node) {
    n.id !in w.containers && forall id :: id in w.containers ==> w.containers[id].volume != n.volume
  }

  /** A replica on the standby under a name that is not the present one's. */
  predicate IsNext(s: Cluster, replica: Option<Pointer>) {
    && s.standby.Some? && replica.Some? && replica.value.container == s.standby.value.id
    && (s.replica.Some? ==> s.replica.value.receipt.outputPath != replica.value.receipt.outputPath)
  }

  method FreshName(taken: set<string>) returns (name: string)
    ensures name !in taken
  {
    name := "";
    var rest := taken;
    while name in rest
      invariant rest <= taken && forall x :: x in taken && x !in rest ==> |x| < |name|
      decreases |rest|
    {
      rest := rest - {name};
      name := name + "f";
    }
  }

  class Controller {
    var world: World
    var state: Cluster
    ghost var trace: seq<World>
    ghost var notes: seq<Note>

    ghost predicate Valid()
      reads this
    {
      Run(trace) && trace[|trace| - 1] == world && Inv(world) && Orderly(notes)
    }

    /** In phase `ready`, with `cluster.json` as the controller remembers it. */
    ghost predicate Linked()
      reads this
    {
      Valid() && state == world.saved && state.phase.Ready?
    }

    constructor ()
      ensures Valid() && Initial(world) && state == world.saved
    {
      var start := World(map[], map[], map[], {}, Cluster(Creating, None, None, 1, None, {}), {}, false, "", "", {}, 0);
      world, trace, notes := start, [start], [];
      state := start.saved;
      new;
      RunKeeps(trace, 0);
    }

    /** One step of the run. */
    ghost method Record(a: Action, v: World)
      requires Valid() && Enabled(world, a) && v == Apply(world, a)
      modifies this`trace
      ensures trace == old(trace) + [v] && Run(trace) && Inv(v)
    {
      ActionKeeps(world, a);
      Extend(trace, a);
      trace := trace + [v];
    }

    /** Everyone else's steps. */
    method Others()
      requires Valid()
      modifies this`world, this`trace
      ensures Valid() && old(trace) <= trace && Drifts(old(world), world)
    {
      var n: nat :| true;
      ghost var w := world;
      for i := 0 to n
        invariant Valid() && old(trace) <= trace && Drifts(w, world)
      {
        ghost var u := world;
        Other();
        DriftsIsTransitive(w, u, world);
      }
    }

    method Other()
      requires Valid()
      modifies this`world, this`trace
      ensures Valid() && old(trace) <= trace && Drifts(old(world), world)
    {
      var a: Action :| true;
      if ByOthers(a) && CanHappen(world, a) {
        OthersDrift(world, a);
        Record(a, Apply(world, a));
        world := Apply(world, a);
      }
    }

    /** The command is sent, and others act. */
    method Send(e: Effect)
      requires Valid() && Enabled(world, Issue(e))
      modifies this`world, this`trace
      ensures Valid() && old(trace) <= trace && Drifts(Apply(old(world), Issue(e)), world)
    {
      var sent := Apply(world, Issue(e));
      Record(Issue(e), sent);
      world := sent;
      Others();
    }

    /** `docker`: the command is sent, and it fails unconfirmed or is carried out. */
    method Docker(e: Effect) returns (r: Outcome<()>, ghost m: World)
      requires Valid() && Enabled(world, Issue(e))
      modifies this`world, this`trace
      ensures Valid() && old(trace) <= trace && Stays(old(world), world) && world.saved == old(world).saved
      ensures !e.RemoveFile? ==> HoldsOn(old(world), world)
      ensures r.Done? ==> Drifts(Apply(old(world), Issue(e)), m) && Inv(m) && Applies(m, e) && world == Landed(m, e, false)
    {
      ghost var w, sent := world, Apply(world, Issue(e));
      OwnStays(world, Issue(e));
      Send(e);
      m := world;
      DriftsHoldsOn(sent, m);
      StaysIsTransitive(w, sent, m);
      r := Fault();
      if r.Done? {
        if e !in world.pending || !Applies(world, e) {
          return Failed, m;
        }
        var landed := Landed(world, e, false);
        LandDrifts(world, e, false);
        DriftsHoldsOn(m, landed);
        StaysIsTransitive(w, m, landed);
        Record(Land(e, false), landed);
        world := landed;
      }
    }

    /** `save`: the file is replaced at once; an error, before or after that, ends the controller. */
    method WriteCluster() returns (r: Outcome<()>)
      requires Valid() && Enabled(world, Save(state))
      modifies this`world, this`trace
      ensures Valid() && old(trace) <= trace && Stays(old(world), world) && !r.Failed?
      ensures world in {old(world), Apply(old(world), Save(state))}
      ensures r.Done? ==> world == Apply(old(world), Save(state))
    {
      if * {
        return Killed;
      }
      OwnStays(world, Save(state));
      Record(Save(state), Apply(world, Save(state)));
      world := Apply(world, Save(state));
      if * {
        return Killed;
      }
      return Done(());
    }

    /** `owned`: whether the container is there. */
    method Owned(id: string) returns (r: Outcome<bool>)
      requires Valid()
      modifies this`world, this`trace
      ensures Valid() && old(trace) <= trace && Drifts(old(world), world)
      ensures r.Done? ==> (r.value <==> id in world.containers)
    {
      Others();
      var _ :- Fault();
      return Done(id in world.containers);
    }

    /** `validate_node`. */
    method ValidateNode(n: Node) returns (r: Outcome<()>)
      requires Valid()
      modifies this`world, this`trace
      ensures Valid() && old(trace) <= trace && Drifts(old(world), world)
      ensures r.Done? ==> n.id in world.containers && world.containers[n.id].volume == n.volume
    {
      var present :- Owned(n.id);
      if !present || world.containers[n.id].volume != n.volume {
        return Failed;
      }
      return Done(());
    }

    /** `new_node` up to the saving of the volume's name. */
    method NewVolume() returns (r: Outcome<string>)
      requires Valid() && !state.phase.Ready? && state.replica == world.saved.replica
      requires state.phase.Fencing? ==> !world.saved.phase.Creating?
      modifies this`world, this`trace, this`state
      ensures Valid() && old(trace) <= trace && Stays(old(world), world)
      ensures state == old(state).(volumes := state.volumes)
      ensures r.Done? ==> world.saved == state && state.volumes == old(state).volumes + {r.value}
      ensures r.Done? ==> r.value !in old(world).volumes && r.value in world.volumes
    {
      ghost var w := world;
      var volume := FreshName(world.volumes.Keys);
      OwnStays(world, MakeVolume(volume));
      Record(MakeVolume(volume), Apply(world, MakeVolume(volume)));
      world := Apply(world, MakeVolume(volume));
      state := state.(volumes := state.volumes + {volume});
      ghost var u := world;
      var saved := WriteCluster();
      StaysIsTransitive(w, u, world);
      var _ :- saved;
      return Done(volume);
    }

    /** `new_node`. It saves the state it is called in, with the new volume. */
    method NewNode() returns (r: Outcome<Node>)
      requires Valid() && !state.phase.Ready? && state.replica == world.saved.replica
      requires state.phase.Fencing? ==> !world.saved.phase.Creating?
      modifies this`world, this`trace, this`state
      ensures Valid() && old(trace) <= trace && Stays(old(world), world)
      ensures state == old(state).(volumes := state.volumes)
      ensures r.Done? ==> world.saved == state && state.volumes == old(state).volumes + {r.value.volume}
      ensures r.Done? ==> IsNode(world, r.value) && r.value.id !in old(world).used
                          && r.value.volume !in old(world).volumes && r.value.volume in world.volumes
    {
      ghost var w := world;
      var volume :- NewVolume();
      ghost var u := world;
      Others();
      StaysIsTransitive(w, u, world);
      var _ :- Fault();
      var id := FreshName(world.used);
      u := world;
      var ran, m := Docker(RunNode(id, volume));
      StaysIsTransitive(w, u, world);
      var _ :- ran;
      RunNodeIsNode(Apply(u, Issue(RunNode(id, volume))), m, id, volume);
      return Done(Node(id, volume));
    }

    // -------------------------------------------------------------- promotion

    /** `fence`. */
    method Fence(primary: Node) returns (r: Outcome<()>)
      requires Valid() && world.saved.phase.Fencing? && primary.id == world.host
      modifies this`world, this`trace, this`notes
      ensures Valid() && old(trace) <= trace && Stays(old(world), world) && world.saved == old(world).saved
      ensures r.Done? ==> IsFenced(world, primary) && NoHost(world) && notes == old(notes) + [Fenced(primary)]
      ensures !r.Done? ==> notes == old(notes)
    {
      ghost var w := world;
      var _ :- RemoveNode(primary.id);
      ghost var u := world;
      var present :- Owned(primary.id);
      StaysIsTransitive(w, u, world);
      var _ :- Fault();
      if present || !(forall id :: id in world.containers ==> world.containers[id].volume != primary.volume) {
        return Failed;
      }
      notes := notes + [Fenced(primary)];
      return Done(());
    }

    method RemoveNode(id: string) returns (r: Outcome<()>)
      requires Valid()
      modifies this`world, this`trace
      ensures Valid() && old(trace) <= trace && Stays(old(world), world) && world.saved == old(world).saved
    {
      ghost var w := world;
      var present :- Owned(id);
      if present {
        ghost var u := world;
        var removed, m := Docker(RemoveContainer(id));
        StaysIsTransitive(w, u, world);
        return removed;
      }
      return Done(());
    }

    /** `copy_final_state`: the standby's volume becomes what the fenced one holds. */
    method CopyFinalState(primary: Node, standby: Node) returns (r: Outcome<()>)
      requires Valid() && NoHost(world) && HoldsAll(world, primary.volume) && primary.volume != standby.volume
      requires Taken(world, primary.id)
      modifies this`world, this`trace
      ensures Valid() && old(trace) <= trace && Stays(old(world), world) && world.saved == old(world).saved
      ensures r.Done? ==> HasVault(world, primary.volume) && HasVault(world, standby.volume)
                          && world.volumes[standby.volume] == world.volumes[primary.volume]
                          && HoldsAll(world, standby.volume) && primary.id !in world.containers
    {
      ghost var w := world;
      var present :- Owned(primary.id);
      if present {
        return Failed;
      }
      ghost var u := world;
      TakenStays(w, u, primary.id);
      var copied, m := Docker(CopyState(primary.volume, standby.volume));
      StaysIsTransitive(w, u, world);
      return copied;
    }

    /** `start`: the broker is started and polled until it answers that it is locked. */
    method Start(n: Node) returns (r: Outcome<()>)
      requires Valid() && Enabled(world, Host(n))
      requires |notes| == 0 || (notes[|notes| - 1].Fenced? && notes[|notes| - 1].node != n)
      modifies this`world, this`trace, this`notes
      ensures Valid() && old(trace) <= trace && Lasts(old(world), world) && world.saved == old(world).saved
      ensures world.hosted && world.host == n.id && world.home == n.volume && notes == old(notes) + [Starting(n)]
    {
      HostLasts(world, n);
      Record(Host(n), Apply(world, Host(n)));
      notes := notes + [Starting(n)];
      world := Apply(world, Host(n));
      r := AwaitBroker(n);
    }

    /** The command is carried out, or not yet, and the broker polled for twenty seconds. */
    method AwaitBroker(n: Node) returns (r: Outcome<()>)
      requires Valid()
      modifies this`world, this`trace
      ensures Valid() && old(trace) <= trace && Stays(old(world), world) && world.saved == old(world).saved
    {
      ghost var w := world;
      Others();
      var _ :- Fault();
      if Serve(n.id) in world.pending {
        LandDrifts(world, Serve(n.id), false);
        DriftsIsTransitive(w, world, Landed(world, Serve(n.id), false));
        Record(Land(Serve(n.id), false), Landed(world, Serve(n.id), false));
        world := Landed(world, Serve(n.id), false);
      }
      for attempt := 0 to 200
        invariant Valid() && old(trace) <= trace && Drifts(w, world)
      {
        ghost var u := world;
        Others();
        DriftsIsTransitive(w, u, world);
        var answered := Fault();
        if answered.Killed? {
          return Killed;
        }
        if answered.Done? && Running(world, n.id) && world.containers[n.id].broker.Locked? {
          return Done(());
        }
      }
      return Failed;
    }

    /** The save that ends a promotion. */
    method PublishCluster() returns (r: Outcome<()>)
      requires Valid() && Enabled(world, Publish(state))
      modifies this`world, this`trace
      ensures Valid() && old(trace) <= trace && !r.Failed?
      ensures world in {old(world), Apply(old(world), Publish(state))}
      ensures r.Done? ==> world == Apply(old(world), Publish(state))
    {
      if * {
        return Killed;
      }
      Record(Publish(state), Apply(world, Publish(state)));
      world := Apply(world, Publish(state));
      if * {
        return Killed;
      }
      return Done(());
    }

    /** `promote`. When it comes off, the phase is `ready` again with the former standby as the
        primary. */
    method Promote() returns (r: Outcome<()>)
      requires Linked() && |notes| > 0 && notes[|notes| - 1].FoundUnhealthy?
      modifies this
      ensures Valid() && old(trace) <= trace && old(notes) <= notes
      ensures r.Done? ==> Linked() && state.primary == old(state).standby && state.replica.None?
                          && state.generation == old(state).generation + 1 && world.promotions == old(world).promotions + 1
    {
      var primary, standby := state.primary.value, state.standby.value;
      var _ :- Announce(primary, standby);
      var _ :- TakeOver(primary, standby);
      r := Activate(standby);
    }

    /** The start of `promote`: the phase is saved as `fencing` before anything is done. */
    method Announce(primary: Node, standby: Node) returns (r: Outcome<()>)
      requires Linked() && |notes| > 0 && notes[|notes| - 1].FoundUnhealthy?
      requires state.primary == Some(primary) && state.standby == Some(standby)
      modifies this
      ensures Valid() && old(trace) <= trace && notes == old(notes) + [Promoting] && Stays(old(world), world)
      ensures r.Done? ==> state == old(state).(phase := Fencing) && world.saved == state && IsNode(world, standby)
    {
      ghost var w := world;
      notes := notes + [Promoting];
      var valid := ValidateNode(standby);
      ghost var u := world;
      var _ :- valid;
      state := state.(phase := Fencing);
      var saved := WriteCluster();
      StaysIsTransitive(w, u, world);
      return saved;
    }

    /** The middle of `promote`: fence the primary and copy its final state. */
    method TakeOver(primary: Node, standby: Node) returns (r: Outcome<()>)
      requires Valid() && world.saved.phase.Fencing? && primary.id == world.host && primary.volume == world.home
      requires primary.id != standby.id && primary.volume != standby.volume
      modifies this`world, this`trace, this`notes
      ensures Valid() && old(trace) <= trace && Stays(old(world), world) && world.saved == old(world).saved
      ensures r.Done? ==> NoHost(world) && HoldsAll(world, standby.volume) && notes == old(notes) + [Fenced(primary)]
      ensures r.Done? ==> primary.id !in world.containers
      ensures !r.Done? ==> old(notes) <= notes
    {
      ghost var w := world;
      var _ :- Fence(primary);
      ghost var u := world;
      var copied := CopyFinalState(primary, standby);
      StaysIsTransitive(w, u, world);
      return copied;
    }

    /** The end of `promote`: start and unlock the new primary, and give it a new standby. */
    method Activate(n: Node) returns (r: Outcome<()>)
      requires Valid() && state == world.saved && state.phase.Fencing? && state.generation == 1 + world.promotions
      requires Enabled(world, Host(n)) && |notes| > 0 && notes[|notes| - 1].Fenced? && notes[|notes| - 1].node != n
      modifies this
      ensures Valid() && old(trace) <= trace && old(notes) <= notes
      ensures r.Done? ==> Linked() && state.primary == Some(n) && state.replica.None?
                          && state.generation == old(state).generation + 1 && world.promotions == old(world).promotions + 1
    {
      var _ :- Start(n);
      var _ :- OpenVault(n);
      r := Finish(n);
    }

    /** `unlock` and the check behind it. */
    method OpenVault(n: Node) returns (r: Outcome<()>)
      requires Valid()
      modifies this`world, this`trace
      ensures Valid() && old(trace) <= trace && Stays(old(world), world) && world.saved == old(world).saved
      ensures r.Done? ==> Running(world, n.id) && world.containers[n.id].broker.Unlocked?
    {
      ghost var w := world;
      var unlocked, m := Docker(Unlock(n.id));
      var _ :- unlocked;
      ghost var u := world;
      Others();
      StaysIsTransitive(w, u, world);
      var _ :- Fault();
      if !(Running(world, n.id) && world.containers[n.id].broker.Unlocked?) {
        return Failed;
      }
      return Done(());
    }

    /** The last part of `promote`. Creating the new standby saves the state half-way, with the
        new primary in both places, but still in phase `fencing`. */
    method Finish(n: Node) returns (r: Outcome<()>)
      requires Valid() && state == world.saved && state.phase.Fencing? && state.generation == 1 + world.promotions
      requires IsNode(world, n) && world.hosted && world.host == n.id && world.home == n.volume
      modifies this`world, this`trace, this`state
      ensures Valid() && old(trace) <= trace
      ensures r.Done? ==> Linked() && state.primary == Some(n) && state.replica.None?
                          && state.generation == old(state).generation + 1 && world.promotions == old(world).promotions + 1
    {
      state := state.(primary := Some(n), generation := state.generation + 1);
      var spare :- NewNode();
      state := state.(standby := Some(spare), replica := None, phase := Ready);
      r := PublishCluster();
    }

    // -------------------------------------------------------------- replication

    method FreshPath() returns (name: string)
      ensures forall id :: RemoveFile(id, Snapshot(name)) !in world.pending && RemoveFile(id, ReceiptOf(name)) !in world.pending
      ensures forall id :: (id, Snapshot(name)) !in world.files && (id, ReceiptOf(name)) !in world.files
    {
      var taken := (set k | k in world.files :: k.1.name) + (set e | e in world.pending && e.RemoveFile? :: e.path.name);
      name := FreshName(taken);
      assert forall id, path :: (id, path) in world.files ==> path.name in taken;
      assert forall id, path :: RemoveFile(id, path) in world.pending ==> path.name in taken;
    }

    /** `backup` and `cp`: the snapshot that leaves the primary has the digest of its receipt. */
    method TakeSnapshot(id: string, name: string) returns (r: Outcome<Receipt>)
      requires Valid()
      modifies this`world, this`trace
      ensures Valid() && old(trace) <= trace && Stays(old(world), world) && HoldsOn(old(world), world)
      ensures world.saved == old(world).saved
      ensures r.Done? ==> r.value.outputPath == name
    {
      ghost var w := world;
      var digest: string, reported: string :| true;
      var taken, m := Docker(PutFile(id, Snapshot(name), Bytes(digest)));
      var _ :- taken;
      ghost var u := world;
      Others();
      DriftsHoldsOn(u, world);
      StaysIsTransitive(w, u, world);
      var _ :- Fault();
      if (id, Snapshot(name)) !in world.files || world.files[(id, Snapshot(name))].content != Bytes(reported) {
        return Failed;
      }
      return Done(Receipt(reported, name));
    }

    /** Write a file on the standby, check its digest if it is a snapshot, and sync it. */
    method StoreFile(id: string, path: Path, content: Content) returns (r: Outcome<()>)
      requires Valid() && Taken(world, id) && RemoveFile(id, path) !in world.pending
      modifies this`world, this`trace
      ensures Valid() && old(trace) <= trace && Stays(old(world), world) && HoldsOn(old(world), world)
      ensures world.saved == old(world).saved
      ensures r.Done? ==> Holds(world, id, path, content)
    {
      ghost var w := world;
      var put, m := Docker(PutFile(id, path, content));
      var _ :- put;
      ghost var u := world;
      r := SyncChecked(id, path, content);
      StaysIsTransitive(w, u, world);
    }

    method SyncChecked(id: string, path: Path, content: Content) returns (r: Outcome<()>)
      requires Valid() && Taken(world, id) && RemoveFile(id, path) !in world.pending
      requires (id, path) in world.files && world.files[(id, path)].content == content
      modifies this`world, this`trace
      ensures Valid() && old(trace) <= trace && Stays(old(world), world) && HoldsOn(old(world), world)
      ensures world.saved == old(world).saved
      ensures r.Done? ==> Holds(world, id, path, content)
    {
      ghost var w := world;
      Others();
      DriftsHoldsOn(w, world);
      var _ :- Fault();
      if path.Snapshot? && ((id, path) !in world.files || world.files[(id, path)].content != content) {
        return Failed;
      }
      ghost var u := world;
      var synced, m := Docker(SyncFile(id, path));
      StaysIsTransitive(w, u, world);
      var _ :- synced;
      SyncedAsWritten(w, u, Apply(u, Issue(SyncFile(id, path))), m, id, path);
      return Done(());
    }

    /** The middle of `replicate`: snapshot and receipt, verified and synced on the standby. */
    method Ship(primary: string, standby: string, name: string) returns (r: Outcome<Receipt>)
      requires Valid()
      requires RemoveFile(standby, Snapshot(name)) !in world.pending && RemoveFile(standby, ReceiptOf(name)) !in world.pending
      requires Taken(world, standby)
      modifies this`world, this`trace
      ensures Valid() && old(trace) <= trace && Stays(old(world), world) && world.saved == old(world).saved
      ensures r.Done? ==> r.value.outputPath == name && Replicated(world, Pointer(standby, r.value))
    {
      ghost var w := world;
      var receipt :- TakeSnapshot(primary, name);
      ghost var u := world;
      TakenLasts(w, u, standby);
      var snapshot := StoreFile(standby, Snapshot(name), Bytes(receipt.sha256Hex));
      StaysIsTransitive(w, u, world);
      var _ :- snapshot;
      TakenLasts(u, world, standby);
      u := world;
      var text := StoreFile(standby, ReceiptOf(name), ReceiptText(receipt));
      StaysIsTransitive(w, u, world);
      var _ :- text;
      assert Holds(world, standby, Snapshot(name), Bytes(receipt.sha256Hex));
      return Done(receipt);
    }

    /** The end of `replicate`: remove the primary's copy and the standby's previous replica. */
    method Clean(primary: string, standby: string, name: string, previous: Option<Pointer>) returns (r: Outcome<()>)
      requires Linked() && primary != standby
      requires state.replica.Some? && state.replica.value.container == standby && state.replica.value.receipt.outputPath == name
      requires previous.Some? ==> previous.value.receipt.outputPath != name
      modifies this`world, this`trace
      ensures Linked() && old(trace) <= trace && world.promotions == old(world).promotions
    {
      var removed, m := Docker(RemoveFile(primary, Snapshot(name)));
      var _ :- removed;
      if previous.Some? && previous.value.container == standby {
        var prior := previous.value.receipt.outputPath;
        removed, m := Docker(RemoveFile(standby, Snapshot(prior)));
        var _ :- removed;
        removed, m := Docker(RemoveFile(standby, ReceiptOf(prior)));
        return removed;
      }
      return Done(());
    }

    /** `replicate`. An error leaves the cluster as it was remembered, with the new replica, that
        is verified, or with the previous one. */
    method Replicate() returns (r: Outcome<()>)
      requires Linked()
      modifies this`world, this`trace, this`state
      ensures Valid() && old(trace) <= trace && world.promotions == old(world).promotions
      ensures state == old(state).(replica := state.replica)
      ensures state.replica == old(state).replica
              || (IsNext(old(state), state.replica) && Replicated(world, state.replica.value))
      ensures !r.Killed? ==> Linked()
      ensures r.Done? ==> IsNext(old(state), state.replica)
    {
      var primary, standby := state.primary.value, state.standby.value;
      var _ :- ValidateNode(primary);
      var _ :- ValidateNode(standby);
      var name := FreshPath();
      ghost var w := world;
      var receipt :- Ship(primary.id, standby.id, name);
      var _ :- Fault();
      assert state.replica.Some? ==> Replicated(w, state.replica.value);
      r := PointAndClean(primary, standby, receipt);
    }

    /** Publish the new replica, then clean up. */
    method PointAndClean(primary: Node, standby: Node, receipt: Receipt) returns (r: Outcome<()>)
      requires Linked() && state.primary == Some(primary) && state.standby == Some(standby)
      requires Replicated(world, Pointer(standby.id, receipt))
      requires state.replica.Some? ==> state.replica.value.receipt.outputPath != receipt.outputPath
      modifies this`world, this`trace, this`state
      ensures Valid() && old(trace) <= trace && world.promotions == old(world).promotions
      ensures state == old(state).(replica := Some(Pointer(standby.id, receipt)))
      ensures Replicated(world, Pointer(standby.id, receipt))
      ensures !r.Killed? ==> Linked()
    {
      var previous := state.replica;
      state := state.(replica := Some(Pointer(standby.id, receipt)));
      var _ :- WriteCluster();
      r := Clean(primary.id, standby.id, receipt.outputPath, previous);
    }

    // -------------------------------------------------------------- supervision

    /** `cli(node, 'status')`: what the broker answers, if there is one and it does. */
    method AskStatus(id: string) returns (r: Outcome<Broker>)
      requires Valid()
      modifies this`world, this`trace
      ensures Valid() && old(trace) <= trace && Drifts(old(world), world)
      ensures r.Done? ==> Running(world, id) && world.containers[id].broker == r.value && !r.value.Off?
    {
      Others();
      var _ :- Fault();
      if !Running(world, id) || world.containers[id].broker.Off? {
        return Failed;
      }
      return Done(world.containers[id].broker);
    }

    /** Whether the recorded primary is there and up. */
    method IsUp(id: string) returns (r: Outcome<bool>)
      requires Linked()
      modifies this`world, this`trace
      ensures Linked() && old(trace) <= trace && world.promotions == old(world).promotions
    {
      var present :- Owned(id);
      return Done(present && world.containers[id].running);
    }

    /** `healthy`. It says that the primary is well only if its broker answered that it is
        unlocked; one that answered that it is locked is an error, and no reason to promote. */
    method Healthy() returns (r: Outcome<bool>, ghost answer: Option<Broker>)
      requires Linked()
      modifies this`world, this`trace, this`notes
      ensures Linked() && old(trace) <= trace && world.promotions == old(world).promotions
      ensures notes == if r == Done(false) then old(notes) + [FoundUnhealthy] else old(notes)
      ensures state.primary.Some?
      ensures answer.Some? ==> Running(world, state.primary.value.id) && world.containers[state.primary.value.id].broker == answer.value
      ensures r == Done(true) <==> answer == Some(Unlocked)
      ensures answer == Some(Locked) ==> r == Failed
    {
      answer := None;
      var id := state.primary.value.id;
      var up :- IsUp(id);
      if !up {
        notes := notes + [FoundUnhealthy];
        return Done(false), answer;
      }
      var status := AskStatus(id);
      match status
      case Killed => return Killed, answer;
      case Failed =>
        notes := notes + [FoundUnhealthy];
        return Done(false), answer;
      case Done(broker) =>
        answer := Some(broker);
        return if broker.Locked? then Failed else Done(true), answer;
    }

    /** Check the primary's health, and promote if it is not well; whether it was. */
    method CheckOrPromote() returns (r: Outcome<bool>)
      requires Linked()
      modifies this
      ensures Valid() && old(trace) <= trace && old(notes) <= notes
      ensures r.Done? ==> Linked() && world.promotions == old(world).promotions + if r.value then 0 else 1
    {
      var checked, answer := Healthy();
      var well :- checked;
      if !well {
        var _ :- Promote();
      }
      return Done(well);
    }

    /** `tick`: a failed replication leads to a promotion only through a fresh health check, and
        ends the tick if the primary is well. */
    method Tick() returns (r: Outcome<()>)
      requires Linked()
      modifies this
      ensures Valid() && old(trace) <= trace && old(notes) <= notes
      ensures r.Done? ==> Linked() && state.replica.Some? && world.promotions <= old(world).promotions + 2
    {
      var _ :- CheckOrPromote();
      r := Replicate();
      if r.Failed? {
        notes := notes + [ReplicationFailed];
        var well :- CheckOrPromote();
        if well {
          return Failed;
        }
        r := Replicate();
      }
    }

    /** `run`: it starts only from a saved phase `ready`, and goes on until an error or a kill. */
    method Supervise(ticks: nat) returns (r: Outcome<()>)
      requires Valid()
      modifies this
      ensures Valid() && old(trace) <= trace
      ensures !old(world).saved.phase.Ready? ==> r == Failed && world == old(world)
      ensures r.Done? ==> Linked()
    {
      state := world.saved;
      if !state.phase.Ready? {
        return Failed;
      }
      var _ :- Resume(state.primary.value);
      for i := 0 to ticks
        invariant Linked() && old(trace) <= trace
      {
        var _ :- Tick();
        Others();
      }
      return Done(());
    }

    /** What `run` does first: unlock the primary if it is up and locked. */
    method Resume(primary: Node) returns (r: Outcome<()>)
      requires Linked()
      modifies this`world, this`trace
      ensures Linked() && old(trace) <= trace
    {
      var present :- Owned(primary.id);
      if present && world.containers[primary.id].running {
        var _ :- ValidateNode(primary);
        var answered := Fault();
        if answered.Killed? {
          return Killed;
        }
        if answered.Done? && primary.id in world.containers && world.containers[primary.id].broker.Locked? {
          var unlocked, m := Docker(Unlock(primary.id));
          return unlocked;
        }
      }
      return Done(());
    }

    /** `create`. */
    method Create() returns (r: Outcome<()>)
      requires Valid() && Initial(world) && state == world.saved && notes == []
      modifies this
      ensures Valid() && old(trace) <= trace
      ensures r.Done? ==> Linked() && state.generation == 1 && state.replica.None?
    {
      var _ :- WriteCluster();
      var _ :- Fault();
      var primary :- NewNode();
      r := CreateStandby(primary);
    }

    /** The middle of `create`. */
    method CreateStandby(primary: Node) returns (r: Outcome<()>)
      requires Valid() && state == world.saved && state.phase.Creating? && state.replica.None? && notes == []
      requires state.generation == 1 && world.promotions == 0
      requires IsNode(world, primary) && primary.volume in world.volumes && NoHost(world) && world.acked == {}
      requires !world.hosted
      modifies this
      ensures Valid() && old(trace) <= trace
      ensures r.Done? ==> Linked() && state.generation == 1 && state.replica.None?
    {
      state := state.(primary := Some(primary));
      var standby :- NewNode();
      state := state.(standby := Some(standby));
      var _ :- WriteCluster();
      r := Inaugurate(primary, standby);
    }

    /** The end of `create`: the primary's vault is made and its broker started. */
    method Inaugurate(primary: Node, standby: Node) returns (r: Outcome<()>)
      requires Valid() && state == world.saved && state.phase.Creating? && state.replica.None? && notes == []
      requires state.primary == Some(primary) && state.standby == Some(standby)
      requires state.generation == 1 && world.promotions == 0
      requires IsNode(world, primary) && IsNode(world, standby) && primary.id != standby.id && primary.volume != standby.volume
      requires NoHost(world) && world.acked == {} && !world.hosted
      modifies this
      ensures Valid() && old(trace) <= trace
      ensures r.Done? ==> Linked() && state.generation == 1 && state.replica.None?
    {
      var _ :- MakeVault(primary);
      var _ :- Start(primary);
      state := state.(phase := Ready);
      r := WriteCluster();
    }

    method MakeVault(primary: Node) returns (r: Outcome<()>)
      requires Valid() && IsNode(world, primary) && NoHost(world) && world.acked == {}
      modifies this`world, this`trace
      ensures Valid() && old(trace) <= trace && Stays(old(world), world) && world.saved == old(world).saved
      ensures r.Done? ==> HoldsAll(world, primary.volume)
    {
      var made, m := Docker(Init(primary.id));
      var _ :- made;
      assert IsNode(m, primary);
      return Done(());
    }
  }

  /** A file that could be synced is still as it was written: its container was up all along. */
  lemma SyncedAsWritten(w: World, u: World, sent: World, m: World, id: string, path: Path)
    requires Drifts(w, u) && Drifts(sent, m) && sent == u.(pending := u.pending + {SyncFile(id, path)})
    requires Taken(w, id) && (id, path) in w.files && RemoveFile(id, path) !in w.pending && Running(m, id)
    ensures (id, path) in m.files && m.files[(id, path)].content == w.files[(id, path)].content && RemoveFile(id, path) !in m.pending
  {
    TakenStays(w, u, id);
    assert Taken(sent, id) && Running(u, id);
    assert Lives(w, u, id, path) && Lives(sent, m, id, path);
  }

  lemma TakenLasts(w: World, v: World, id: string)
    requires Taken(w, id) && Lasts(w, v)
    ensures Taken(v, id)
  {
    var n := Node(id, if id in w.containers then w.containers[id].volume else "");
    assert IsNode(w, n);
  }

  lemma HostLasts(w: World, n: Node)
    requires Inv(w) && Enabled(w, Host(n))
    ensures Lasts(w, Apply(w, Host(n)))
  {
    var v := Apply(w, Host(n));
    assert forall i :: Taken(w, i) ==> Taken(v, i);
  }

  lemma RunNodeIsNode(sent: World, m: World, id: string, volume: string)
    requires Drifts(sent, m) && Inv(m) && Applies(m, RunNode(id, volume)) && id in sent.used
    requires forall v :: RunNode(id, v) in sent.pending ==> v == volume
    ensures IsNode(Landed(m, RunNode(id, volume), false), Node(id, volume))
  {
    var v := Landed(m, RunNode(id, volume), false);
    forall u ensures RunNode(id, u) !in v.pending {
      assert RunNode(id, u) in m.pending ==> RunNode(id, u) in sent.pending;
    }
  }

  /** `Enabled` for everyone else's actions. */
  predicate CanHappen(w: World, a: Action)
    requires ByOthers(a)
    ensures CanHappen(w, a) <==> Enabled(w, a)
  {
    match a
    case Land(e, _) => e in w.pending
    case Write(id, _) => Running(w, id) && w.containers[id].broker.Unlocked? && HasVault(w, w.containers[id].volume)
    case Die(id) => id in w.containers
    case StopBroker(id) => id in w.containers
    case SetLock(id, _) => id in w.containers && !w.containers[id].broker.Off?
    case Attach(id, _) => id !in w.used
    case Detach(id) => id in w.containers
    case LoseFile(id, path, _) => (id, path) in w.files && !w.files[(id, path)].synced && !Running(w, id)
  }
}
