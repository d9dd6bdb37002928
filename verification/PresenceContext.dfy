/** The shared authentication context (`PresenceReadContext` in apps/macos/PresenceKey.swift).
    A read takes the lock twice, and its operation runs between the two without it, so every
    locked section is one atomic event and any interleaving of events is a run. */
module PresenceContext {
  import opened Outcomes

  /** Ten seconds, in nanoseconds. */
  const REUSE: int := 10_000_000_000

  // ---------------------------------------------------------------- the events as functions

  datatype Entry<C> = Entry(vault: nat, context: C, expires: Option<int>)

  /** Contexts are numbered as they are created; `issued` is the next number. */
  datatype State = State(entry: Option<Entry<nat>>, invalidated: set<nat>, issued: nat, clock: int)

  const INITIAL := State(None, {}, 0, 0)

  predicate Cached(s: State, context: nat) {
    s.entry.Some? && s.entry.value.context == context
  }

  predicate Reusable(s: State, vault: nat, now: int) {
    s.entry.Some? && s.entry.value.vault == vault
    && (s.entry.value.expires.Some? ==> now < s.entry.value.expires.value)
  }

  /** Drop the cached entry, invalidating its context. */
  function Drop(s: State): State {
    if s.entry.None? then s
    else s.(entry := None, invalidated := s.invalidated + {s.entry.value.context})
  }

  /** The first locked section of `read`. */
  function Acquire(s: State, vault: nat, now: int): (State, nat) {
    if Reusable(s, vault, now) then (s.(clock := now), s.entry.value.context)
    else (Drop(s).(entry := Some(Entry(vault, s.issued, None)), issued := s.issued + 1, clock := now), s.issued)
  }

  /** The locked section after the operation returned. */
  function Succeed(s: State, context: nat, now: int): State {
    if Cached(s, context) && s.entry.value.expires.None? then
      s.(entry := Some(s.entry.value.(expires := Some(now + REUSE))), clock := now)
    else s.(clock := now)
  }

  /** The locked section after the operation threw. */
  function Fail(s: State, context: nat): State {
    s.(invalidated := s.invalidated + {context}, entry := if Cached(s, context) then None else s.entry)
  }

  datatype Event =
    | Started(vault: nat, now: int, context: nat)
    | Succeeded(context: nat, now: int)
    | Failed(context: nat)
    | Invalidated

  /** Only a started read can finish, and the clock does not run backwards. */
  predicate Next(s: State, e: Event, t: State) {
    match e
    case Started(vault, now, context) => s.clock <= now && (t, context) == Acquire(s, vault, now)
    case Succeeded(context, now) => context < s.issued && s.clock <= now && t == Succeed(s, context, now)
    case Failed(context) => context < s.issued && t == Fail(s, context)
    case Invalidated => t == Drop(s)
  }

  ghost predicate Run(states: seq<State>, events: seq<Event>) {
    |states| == |events| + 1 && states[0] == INITIAL
    && forall i :: 0 <= i < |events| ==> Next(states[i], events[i], states[i + 1])
  }

  // ---------------------------------------------------------------- what every run keeps

  /** The cached context is the only one issued and not invalidated, and its expiry is no
      later than ten seconds from now. */
  ghost predicate Inv(s: State) {
    (forall c :: c in s.invalidated ==> c < s.issued)
    && (forall c :: 0 <= c < s.issued ==> (c in s.invalidated <==> !Cached(s, c)))
    && (s.entry.Some? ==> s.entry.value.context < s.issued)
    && (s.entry.Some? && s.entry.value.expires.Some? ==> s.entry.value.expires.value <= s.clock + REUSE)
  }

  lemma {:induction false} EveryStateIsConsistent(states: seq<State>, events: seq<Event>, i: nat)
    requires Run(states, events) && i <= |events|
    ensures Inv(states[i])
  {
    if i > 0 {
      EveryStateIsConsistent(states, events, i - 1);
      assert Next(states[i - 1], events[i - 1], states[i]);
    }
  }

  /** What holds between a state and any later one about a context issued by then. */
  ghost predicate Later(s: State, t: State, c: nat) {
    s.issued <= t.issued && s.clock <= t.clock && s.invalidated <= t.invalidated
    && (Cached(t, c) ==>
      && Cached(s, c)
      && t.entry.value.vault == s.entry.value.vault
      && (s.entry.value.expires.Some? ==> t.entry.value.expires == s.entry.value.expires))
  }

  lemma {:induction false} Persists(states: seq<State>, events: seq<Event>, i: nat, j: nat, c: nat)
    requires Run(states, events) && i <= j <= |events| && c < states[i].issued
    ensures Later(states[i], states[j], c)
    decreases j
  {
    if i < j {
      Persists(states, events, i, j - 1, c);
      EveryStateIsConsistent(states, events, j - 1);
      assert Next(states[j - 1], events[j - 1], states[j]);
    }
  }

  /** A context that has left the cache, by expiry, failure, another vault or `invalidate`,
      is invalidated for good and never cached or handed out again: a success that arrives
      late cannot reinstall it. */
  lemma DroppedForGood(states: seq<State>, events: seq<Event>, i: nat, j: nat, c: nat)
    requires Run(states, events) && i <= j <= |events|
    requires c < states[i].issued && !Cached(states[i], c)
    ensures c in states[j].invalidated && !Cached(states[j], c)
    ensures j < |events| && events[j].Started? ==> events[j].context != c
  {
    EveryStateIsConsistent(states, events, i);
    Persists(states, events, i, j, c);
    if j < |events| && events[j].Started? {
      assert Next(states[j], events[j], states[j + 1]);
      EveryStateIsConsistent(states, events, j);
    }
  }

  /** A read's context is live when it is handed out, and is the cached one. */
  lemma StartedContextIsLive(states: seq<State>, events: seq<Event>, i: nat)
    requires Run(states, events) && i < |events| && events[i].Started?
    ensures events[i].context !in states[i + 1].invalidated && Cached(states[i + 1], events[i].context)
    ensures states[i + 1].entry.value.vault == events[i].vault
  {
    EveryStateIsConsistent(states, events, i + 1);
    EveryStateIsConsistent(states, events, i);
    assert Next(states[i], events[i], states[i + 1]);
  }

  /** No context ever serves two vaults. */
  lemma OneVault(states: seq<State>, events: seq<Event>, i: nat, j: nat)
    requires Run(states, events) && i <= j < |events| && events[i].Started? && events[j].Started?
    requires events[i].context == events[j].context
    ensures events[i].vault == events[j].vault
  {
    StartedContextIsLive(states, events, i);
    StartedContextIsLive(states, events, j);
    EveryStateIsConsistent(states, events, i + 1);
    Persists(states, events, i + 1, j + 1, events[i].context);
  }

  /** An expiry, once set, stays as it is for as long as its context is cached. */
  lemma ExpiryIsSetOnce(states: seq<State>, events: seq<Event>, i: nat, j: nat, c: nat)
    requires Run(states, events) && i <= j <= |events| && Cached(states[i], c) && Cached(states[j], c)
    requires states[i].entry.value.expires.Some?
    ensures states[j].entry.value == states[i].entry.value
  {
    EveryStateIsConsistent(states, events, i);
    Persists(states, events, i, j, c);
  }

  /** The expiry is ten seconds after the first success of the cached context: that success
      set it, and no earlier one happened while the context was cached. */
  lemma {:induction false} ExpiryIsFirstSuccess(states: seq<State>, events: seq<Event>, j: nat) returns (i: nat)
    requires Run(states, events) && j <= |events|
    requires states[j].entry.Some? && states[j].entry.value.expires.Some?
    ensures i < j && events[i].Succeeded? && events[i].context == states[j].entry.value.context
    ensures states[j].entry.value.expires.value == events[i].now + REUSE
    ensures forall h :: 0 <= h < i && events[h].Succeeded? ==> events[h].context != events[i].context
  {
    assert j > 0;
    assert Next(states[j - 1], events[j - 1], states[j]);
    EveryStateIsConsistent(states, events, j - 1);
    if states[j - 1].entry.Some? && states[j - 1].entry.value.expires.Some? {
      i := ExpiryIsFirstSuccess(states, events, j - 1);
    } else {
      i := j - 1;
      forall h | 0 <= h < i && events[h].Succeeded? ensures events[h].context != events[i].context {
        var c := events[h].context;
        assert Next(states[h], events[h], states[h + 1]);
        Persists(states, events, h + 1, j - 1, c);
      }
    }
  }

  /** A read that starts ten seconds or more after a success of a context never gets that
      context: if it is still cached it is invalidated and a fresh one is made. */
  lemma TenSecondLimit(states: seq<State>, events: seq<Event>, i: nat, j: nat)
    requires Run(states, events) && i < j < |events| && events[i].Succeeded? && events[j].Started?
    requires events[i].now + REUSE <= events[j].now
    ensures events[j].context != events[i].context
    ensures Cached(states[j], events[i].context) ==> events[j].context == states[j].issued
    ensures events[i].context in states[j + 1].invalidated
  {
    var c := events[i].context;
    assert Next(states[i], events[i], states[i + 1]);
    assert Next(states[j], events[j], states[j + 1]);
    EveryStateIsConsistent(states, events, i);
    EveryStateIsConsistent(states, events, i + 1);
    EveryStateIsConsistent(states, events, j);
    EveryStateIsConsistent(states, events, j + 1);
    Persists(states, events, i + 1, j, c);
  }

  /** The event does not make another context take the place of `c`. */
  predicate Spares(e: Event, c: nat) {
    match e
    case Started(_, _, context) => context == c
    case Succeeded(_, _) => true
    case Failed(context) => context != c
    case Invalidated => false
  }

  lemma NotSparedIsDropped(states: seq<State>, events: seq<Event>, h: nat, c: nat)
    requires Run(states, events) && h < |events| && c < states[h].issued && !Spares(events[h], c)
    ensures !Cached(states[h + 1], c)
  {
    assert Next(states[h], events[h], states[h + 1]);
  }

  lemma {:induction false} SparedStaysCached(states: seq<State>, events: seq<Event>, i: nat, j: nat, c: nat)
    requires Run(states, events) && i <= j <= |events| && Cached(states[i], c)
    requires forall h :: i <= h < j ==> Spares(events[h], c)
    ensures Cached(states[j], c) && states[j].entry.value.vault == states[i].entry.value.vault
  {
    if i < j {
      SparedStaysCached(states, events, i, j - 1, c);
      EveryStateIsConsistent(states, events, j - 1);
      assert Next(states[j - 1], events[j - 1], states[j]);
    }
  }

  /** No success of `c` so far is ten seconds old. */
  predicate InTime(events: seq<Event>, j: nat, c: nat, now: int)
    requires j <= |events|
  {
    forall h :: 0 <= h < j && events[h].Succeeded? && events[h].context == c ==> now < events[h].now + REUSE
  }

  lemma ReusedIsSpared(states: seq<State>, events: seq<Event>, i: nat, j: nat)
    requires Run(states, events) && i < j < |events| && events[i].Started? && events[j].Started?
    requires events[j].context == events[i].context
    ensures events[j].vault == events[i].vault && InTime(events, j, events[i].context, events[j].now)
    ensures forall h :: i < h < j ==> Spares(events[h], events[i].context)
  {
    var c := events[i].context;
    OneVault(states, events, i, j);
    forall h | 0 <= h < j && events[h].Succeeded? && events[h].context == c ensures events[j].now < events[h].now + REUSE {
      if events[h].now + REUSE <= events[j].now {
        TenSecondLimit(states, events, h, j);
      }
    }
    StartedContextIsLive(states, events, i);
    EveryStateIsConsistent(states, events, i + 1);
    forall h | i < h < j ensures Spares(events[h], c) {
      Persists(states, events, i + 1, h, c);
      if !Spares(events[h], c) {
        NotSparedIsDropped(states, events, h, c);
        Persists(states, events, i + 1, h + 1, c);
        DroppedForGood(states, events, h + 1, j, c);
      }
    }
  }

  /** A read reuses the context of an earlier read exactly when it is for the same vault, nothing
      between them took the context's place, and no success with it is ten seconds old. */
  lemma ReusedExactly(states: seq<State>, events: seq<Event>, i: nat, j: nat)
    requires Run(states, events) && i < j < |events| && events[i].Started? && events[j].Started?
    ensures events[j].context == events[i].context
            <==> && events[j].vault == events[i].vault && InTime(events, j, events[i].context, events[j].now)
                 && forall h :: i < h < j ==> Spares(events[h], events[i].context)
  {
    var c := events[i].context;
    if events[j].context == c {
      ReusedIsSpared(states, events, i, j);
    } else if events[j].vault == events[i].vault && forall h :: i < h < j ==> Spares(events[h], c) {
      StartedContextIsLive(states, events, i);
      SparedStaysCached(states, events, i + 1, j, c);
      assert Next(states[j], events[j], states[j + 1]);
      var first := ExpiryIsFirstSuccess(states, events, j);
      assert events[j].now >= events[first].now + REUSE;
    }
  }

  // ---------------------------------------------------------------- the class

  class LAContext {
    ghost const id: nat
    var invalidated: bool

    constructor (ghost id: nat)
      ensures this.id == id && !invalidated
    {
      this.id := id;
      invalidated := false;
    }

    method Invalidate()
      modifies this
      ensures invalidated
    {
      invalidated := true;
    }
  }

  class PresenceReadContext {
    var entry: Option<Entry<LAContext>>
    var clock: int
    /** Every context created so far; reads in flight hold some of them. */
    var issued: seq<LAContext>
    ghost var states: seq<State>
    ghost var events: seq<Event>

    /** The fields agree with the last state of a run of the machine above. */
    ghost predicate Valid()
      reads this, issued
    {
      (forall i :: 0 <= i < |issued| ==> issued[i].id == i)
      && (entry.Some? ==> entry.value.context in issued)
      && Run(states, events)
      && View() == states[|events|]
    }

    ghost function View(): State
      reads this, issued
    {
      State(if entry.None? then None
            else Some(Entry(entry.value.vault, entry.value.context.id, entry.value.expires)),
            set i | 0 <= i < |issued| && issued[i].invalidated, |issued|, clock)
    }

    ghost function Contexts(): set<LAContext>
      reads this
    {
      set c | c in issued
    }

    constructor ()
      ensures Valid() && issued == [] && events == []
    {
      entry, clock, issued := None, 0, [];
      states, events := [INITIAL], [];
    }

    /** `ContinuousClock.now`. */
    method Now() returns (now: int)
      modifies this`clock
      ensures old(clock) <= now == clock
    {
      var elapsed: nat :| true;
      clock := clock + elapsed;
      now := clock;
    }

    /** The first locked section of `read`. */
    method Begin(vault: nat) returns (context: LAContext)
      requires Valid()
      modifies this, Contexts()
      ensures Valid() && old(issued) <= issued && context in issued
      ensures old(Contexts()) <= Contexts() && fresh(Contexts() - old(Contexts()))
      ensures exists now :: events == old(events) + [Started(vault, now, context.id)]
    {
      ghost var before := View();
      var now := Now();
      if entry.Some? && (entry.value.vault != vault || (entry.value.expires.Some? && now >= entry.value.expires.value)) {
        entry.value.context.Invalidate();
        entry := None;
      }
      if entry.Some? {
        context := entry.value.context;
      } else {
        context := new LAContext(|issued|);
        entry := Some(Entry(vault, context, None));
        issued := issued + [context];
      }
      assert View().invalidated == Acquire(before, vault, now).0.invalidated;
      states, events := states + [View()], events + [Started(vault, now, context.id)];
    }

    /** The locked section after the operation returned a key. */
    method Finish(context: LAContext)
      requires Valid() && context in issued
      modifies this
      ensures Valid() && issued == old(issued)
      ensures exists now :: events == old(events) + [Succeeded(context.id, now)]
    {
      var now := Now();
      if entry.Some? && entry.value.context == context && entry.value.expires.None? {
        entry := Some(entry.value.(expires := Some(now + REUSE)));
      }
      states, events := states + [View()], events + [Succeeded(context.id, now)];
    }

    /** The locked section after the operation threw. */
    method Abandon(context: LAContext)
      requires Valid() && context in issued
      modifies this, Contexts()
      ensures Valid() && issued == old(issued) && context.invalidated
      ensures events == old(events) + [Event.Failed(context.id)]
    {
      ghost var before := View();
      context.Invalidate();
      if entry.Some? && entry.value.context == context {
        entry := None;
      }
      assert View().invalidated == before.invalidated + {context.id};
      states, events := states + [View()], events + [Event.Failed(context.id)];
    }

    method Invalidate()
      requires Valid()
      modifies this, Contexts()
      ensures Valid() && issued == old(issued) && entry.None?
      ensures events == old(events) + [Invalidated]
    {
      ghost var before := View();
      if entry.Some? {
        entry.value.context.Invalidate();
        entry := None;
      }
      assert View().invalidated == Drop(before).invalidated;
      states, events := states + [View()], events + [Invalidated];
    }

    /** Other threads run any number of locked sections, in any order. */
    method Others(sections: nat)
      requires Valid()
      modifies this, Contexts()
      ensures Valid() && old(issued) <= issued && old(events) <= events
      ensures old(Contexts()) <= Contexts() && fresh(Contexts() - old(Contexts()))
    {
      for i := 0 to sections
        invariant Valid() && old(issued) <= issued && old(events) <= events
        invariant old(Contexts()) <= Contexts() && fresh(Contexts() - old(Contexts()))
      {
        if * {
          var vault: nat :| true;
          var _ := Begin(vault);
        } else if * {
          Invalidate();
        } else if issued != [] {
          var k :| 0 <= k < |issued|;
          if * {
            Finish(issued[k]);
          } else {
            Abandon(issued[k]);
          }
        }
      }
    }

    /** `read`, with an operation that takes as long as other threads need for their
        sections and then returns or throws. */
    method Read(vault: nat, others: nat, returnsKey: bool) returns (context: LAContext)
      requires Valid()
      modifies this, Contexts()
      ensures Valid() && |events| >= |old(events)| + 2 && old(events) <= events
      ensures events[|old(events)|].Started? && events[|old(events)|].vault == vault
      ensures events[|old(events)|].context == context.id
      ensures if returnsKey then events[|events| - 1].Succeeded? && events[|events| - 1].context == context.id
              else events[|events| - 1] == Event.Failed(context.id) && context.invalidated
    {
      context := Begin(vault);
      Others(others);
      if returnsKey {
        Finish(context);
      } else {
        Abandon(context);
      }
    }
  }
}
