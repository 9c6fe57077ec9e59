/** Admission, registration and shutdown (internal/session/limiter.go, registry.go and handler.go). */
module Admission {
  import opened Common

  /** A connection and the session made for it. */
  type Id = nat

  // ----- The limiter and the registry -----

  datatype Limiter = Limiter(active: int, max: int)

  function TryAcquire(l: Limiter): Option<Limiter> {
    if l.active >= l.max then None else Some(l.(active := l.active + 1))
  }

  datatype Registry = Registry(sessions: set<Id>, byDevice: map<string, Id>, wg: int, closed: bool)

  /** The session that registering `c` under `key` evicts. */
  function Rival(r: Registry, c: Id, key: string): Option<Id> {
    if |key| > 0 && key in r.byDevice && r.byDevice[key] != c then Some(r.byDevice[key]) else None
  }

  function Registered(r: Registry, c: Id, key: string): Registry {
    if r.closed then r
    else
      r.(byDevice := if |key| > 0 then r.byDevice[key := c] else r.byDevice,
         sessions := r.sessions + {c}, wg := r.wg + 1)
  }

  /** The locked part of the cleanup closure. */
  function Removed(r: Registry, c: Id, key: string): Registry {
    r.(sessions := r.sessions - {c},
       byDevice := if |key| > 0 && key in r.byDevice && r.byDevice[key] == c then r.byDevice - {key} else r.byDevice)
  }

  // ----- Connections -----

  /** Where ServeHTTP stands for one connection. */
  datatype Stage =
    | Checked                              // Acquire saw an open registry
    | Slotted                              // holds a slot, before the upgrade
    | Upgraded                             // before Register
    | Refused                              // upgrade or Register failed, slot not yet given back
    | Evicting(key: string, rival: Id)     // registered, about to close the old session
    | Running(key: string)
    | Leaving                              // removed from the registry
    | Released                             // slot given back, wait group not yet told
    | Gone

  datatype State = State(
    limiter: Limiter,
    reg: Registry,
    stages: map<Id, Stage>,
    keys: map<Id, string>,        // the key each session was registered under
    latest: map<string, Id>,      // the session registered last under each key
    evictedBy: map<Id, Id>,       // who evicted whom
    closeCalls: set<Id>,          // sessions whose Close was called
    snapshot: set<Id>,            // sessions that Shutdown is closing
    acquired: set<Id>,
    released: set<Id>,
    done: set<Id>,                // wg.Done was called
    doubled: bool)                // a release or a wg.Done ran twice

  datatype Action =
    | Check(c: Id)
    | Acquire(c: Id)
    | Accept(c: Id, ok: bool)
    | Register(c: Id, key: string)
    | GiveBack(c: Id)
    | CloseOld(c: Id)
    | Remove(c: Id)
    | Release(c: Id)
    | Done(c: Id)
    | Shutdown
    | CloseOne(c: Id)

  ghost predicate Initial(s: State) {
    && s.limiter.active == 0 && s.limiter.max > 0
    && s.reg == Registry({}, map[], 0, false)
    && s.stages == map[] && s.keys == map[] && s.latest == map[] && s.evictedBy == map[]
    && s.closeCalls == {} && s.snapshot == {} && s.acquired == {} && s.released == {} && s.done == {} && !s.doubled
  }

  predicate At(s: State, c: Id, stage: Stage) { c in s.stages && s.stages[c] == stage }

  /** The action can happen now. */
  predicate Enabled(s: State, a: Action) {
    match a
    case Check(c) => c !in s.stages
    case Acquire(c) => At(s, c, Checked)
    case Accept(c, ok) => At(s, c, Slotted)
    case Register(c, key) => At(s, c, Upgraded)
    case GiveBack(c) => At(s, c, Refused)
    case CloseOld(c) => c in s.stages && s.stages[c].Evicting?
    case Remove(c) => c in s.stages && s.stages[c].Running?
    case Release(c) => At(s, c, Leaving)
    case Done(c) => At(s, c, Released)
    case Shutdown => !s.reg.closed
    case CloseOne(c) => c in s.snapshot
  }

  /** The action registers its session, and whom that evicts. */
  predicate Joins(s: State, a: Action) { a.Register? && !s.reg.closed }

  function Victim(s: State, a: Action): Option<Id> {
    if Joins(s, a) then Rival(s.reg, a.c, a.key) else None
  }

  predicate GivesBack(a: Action) { a.GiveBack? || a.Release? }

  /** Where the connection goes. */
  function To(s: State, a: Action): Stage
    requires Enabled(s, a) && !a.Shutdown? && !a.CloseOne?
  {
    match a
    case Check(_) => if s.reg.closed then Gone else Checked
    case Acquire(_) => if TryAcquire(s.limiter).Some? then Slotted else Gone
    case Accept(_, ok) => if ok then Upgraded else Refused
    case Register(c, key) =>
      if s.reg.closed then Refused
      else if Rival(s.reg, c, key).Some? then Evicting(key, Rival(s.reg, c, key).value) else Running(key)
    case GiveBack(_) => Gone
    case CloseOld(c) => Running(s.stages[c].key)
    case Remove(_) => Leaving
    case Release(_) => Released
    case Done(_) => Gone
  }

  function LimiterAfter(s: State, a: Action): Limiter {
    if a.Acquire? && TryAcquire(s.limiter).Some? then TryAcquire(s.limiter).value
    else if GivesBack(a) && a.c !in s.released then s.limiter.(active := s.limiter.active - 1)
    else s.limiter
  }

  function RegistryAfter(s: State, a: Action): Registry {
    match a
    case Register(c, key) => Registered(s.reg, c, key)
    case Remove(c) => if c in s.stages && s.stages[c].Running? then Removed(s.reg, c, s.stages[c].key) else s.reg
    case Done(_) => s.reg.(wg := s.reg.wg - 1)
    case Shutdown => s.reg.(closed := true)
    case _ => s.reg
  }

  function StagesAfter(s: State, a: Action): map<Id, Stage>
    requires Enabled(s, a)
  {
    if a.Shutdown? || a.CloseOne? then s.stages else s.stages[a.c := To(s, a)]
  }

  function CloseCallsAfter(s: State, a: Action): set<Id>
    requires Enabled(s, a)
  {
    if a.CloseOld? then s.closeCalls + {s.stages[a.c].rival}
    else if a.CloseOne? then s.closeCalls + {a.c}
    else s.closeCalls
  }

  /** One critical section, or one step between two. */
  function Step(s: State, a: Action): State {
    if !Enabled(s, a) then s
    else
      State(
        LimiterAfter(s, a),
        RegistryAfter(s, a),
        StagesAfter(s, a),
        if Joins(s, a) then s.keys[a.c := a.key] else s.keys,
        if Joins(s, a) && |a.key| > 0 then s.latest[a.key := a.c] else s.latest,
        if Victim(s, a).Some? then s.evictedBy[Victim(s, a).value := a.c] else s.evictedBy,
        CloseCallsAfter(s, a),
        if a.Shutdown? then s.reg.sessions else s.snapshot,
        if a.Acquire? && TryAcquire(s.limiter).Some? then s.acquired + {a.c} else s.acquired,
        if GivesBack(a) then s.released + {a.c} else s.released,
        if a.Done? then s.done + {a.c} else s.done,
        s.doubled || (GivesBack(a) && a.c in s.released) || (a.Done? && a.c in s.done))
  }

  function Run(s: State, actions: seq<Action>): State {
    if |actions| == 0 then s else Step(Run(s, actions[..|actions| - 1]), actions[|actions| - 1])
  }

  // ----- What every step keeps -----

  predicate Holds(st: Stage) { !st.Checked? && !st.Released? && !st.Gone? }

  /** Registered and not yet counted down. */
  predicate Awaited(st: Stage) { st.Evicting? || st.Running? || st.Leaving? || st.Released? }

  predicate Listed(st: Stage) { st.Evicting? || st.Running? }

  type Stages = map<Id, Stage>

  /** The slots in use are the grants not yet released, and each is held by a connection on its way. */
  ghost predicate Slots(l: Limiter, stages: Stages, acquired: set<Id>, released: set<Id>) {
    && l.active == |acquired - released|
    && 0 <= l.active <= l.max
    && (forall c: Id :: c in acquired && c !in released <==> c in stages && Holds(stages[c]))
    && (forall c: Id :: c in acquired ==> c in stages && !stages[c].Checked?)
    && released <= acquired
  }

  /** Registered and not yet counted down is the same as awaited. */
  ghost predicate WaitsFor(stages: Stages, keys: map<Id, string>, done: set<Id>) {
    && (forall c: Id :: c in keys && c !in done <==> c in stages && Awaited(stages[c]))
    && (forall c: Id :: c in keys ==> c in stages)
    && (forall c: Id :: c in done ==> c in keys)
  }

  /** The wait group counts the registered sessions whose cleanup has not ended. */
  ghost predicate Waits(wg: int, stages: Stages, keys: map<Id, string>, done: set<Id>) {
    wg == |keys.Keys - done| && WaitsFor(stages, keys, done)
  }

  /** A session has a key once it went past Register. */
  ghost predicate Entries(stages: Stages, keys: map<Id, string>) {
    forall c: Id :: c in keys ==> c in stages && (Awaited(stages[c]) || stages[c].Gone?)
  }

  /** The registry lists the sessions between Register and cleanup, under their keys; once it is closed
      Shutdown has a hold of them all. */
  ghost predicate Lists(reg: Registry, stages: Stages, keys: map<Id, string>, snapshot: set<Id>) {
    && (forall c: Id :: c in reg.sessions <==> c in stages && Listed(stages[c]))
    && (forall c: Id :: c in stages && Listed(stages[c]) ==> c in keys && stages[c].key == keys[c])
    && (reg.closed ==> reg.sessions <= snapshot)
  }

  /** A device is mapped to the session registered last under its key as long as that one is registered. */
  ghost predicate Devices(reg: Registry, keys: map<Id, string>, latest: map<string, Id>) {
    && (forall k: string :: k in reg.byDevice <==> k in latest && latest[k] in reg.sessions)
    && (forall k: string :: k in reg.byDevice ==> reg.byDevice[k] == latest[k])
    && (forall k: string :: k in latest ==> |k| > 0 && latest[k] in keys && keys[latest[k]] == k)
    && (forall c: Id :: c in keys && |keys[c]| > 0 ==> keys[c] in latest)
  }

  predicate Outdated(c: Id, keys: map<Id, string>, latest: map<string, Id>) {
    c in keys && keys[c] in latest && latest[keys[c]] != c
  }

  /** A registered session that is not the latest under its key was evicted, and only such a one was. */
  ghost predicate Evictions(sessions: set<Id>, keys: map<Id, string>, latest: map<string, Id>, evictedBy: map<Id, Id>) {
    && (forall c: Id :: c in sessions && Outdated(c, keys, latest) ==> c in evictedBy)
    && (forall c: Id :: c in evictedBy ==> Outdated(c, keys, latest))
  }

  predicate Evicts(stages: Stages, d: Id, c: Id) { d in stages && stages[d].Evicting? && stages[d].rival == c }

  /** The Close of whoever was evicted was called or is the next thing its evictor does. */
  ghost predicate Closes(stages: Stages, evictedBy: map<Id, Id>, closeCalls: set<Id>) {
    && (forall c: Id :: c in evictedBy ==> c in closeCalls || Evicts(stages, evictedBy[c], c))
  }

  ghost predicate SlotsOk(s: State) { Slots(s.limiter, s.stages, s.acquired, s.released) }
  ghost predicate WaitOk(s: State) { Waits(s.reg.wg, s.stages, s.keys, s.done) }
  ghost predicate EntryOk(s: State) { Entries(s.stages, s.keys) }
  ghost predicate ListOk(s: State) { Lists(s.reg, s.stages, s.keys, s.snapshot) }
  ghost predicate DeviceOk(s: State) { Devices(s.reg, s.keys, s.latest) }
  ghost predicate EvictionOk(s: State) { Evictions(s.reg.sessions, s.keys, s.latest, s.evictedBy) }
  ghost predicate CloseOk(s: State) { Closes(s.stages, s.evictedBy, s.closeCalls) }

  ghost predicate Inv(s: State) {
    SlotsOk(s) && WaitOk(s) && EntryOk(s) && ListOk(s) && DeviceOk(s) && EvictionOk(s) && CloseOk(s) && !s.doubled
  }

  // Slots.

  lemma SlotsStay(l: Limiter, stages: Stages, acquired: set<Id>, released: set<Id>, c: Id, st: Stage)
    requires Slots(l, stages, acquired, released)
    requires Holds(st) <==> c in stages && Holds(stages[c])
    requires st.Checked? ==> c !in stages
    ensures Slots(l, stages[c := st], acquired, released)
  {
  }

  lemma SlotsTaken(l: Limiter, stages: Stages, acquired: set<Id>, released: set<Id>, c: Id)
    requires Slots(l, stages, acquired, released) && l.active < l.max
    requires c in stages && stages[c].Checked?
    ensures Slots(l.(active := l.active + 1), stages[c := Slotted], acquired + {c}, released)
  {
    assert c !in acquired && c !in released;
    assert (acquired + {c}) - released == (acquired - released) + {c};
  }

  lemma SlotsGiven(l: Limiter, stages: Stages, acquired: set<Id>, released: set<Id>, c: Id, st: Stage)
    requires Slots(l, stages, acquired, released)
    requires c in stages && Holds(stages[c]) && !Holds(st) && !st.Checked?
    ensures c !in released
    ensures Slots(l.(active := l.active - 1), stages[c := st], acquired, released + {c})
  {
    assert acquired - (released + {c}) == (acquired - released) - {c};
    assert c in acquired - released;
  }

  /** A slot is taken by Acquire and given back by GiveBack or Release; every other step keeps what is held. */
  lemma SlotMoves(s: State, a: Action)
    requires Enabled(s, a) && !a.Shutdown? && !a.CloseOne?
    ensures To(s, a).Checked? ==> a.c !in s.stages
    ensures GivesBack(a) ==> a.c in s.stages && Holds(s.stages[a.c]) && !Holds(To(s, a)) && !To(s, a).Checked?
    ensures !GivesBack(a) && !(a.Acquire? && To(s, a).Slotted?) ==> (Holds(To(s, a)) <==> a.c in s.stages && Holds(s.stages[a.c]))
    ensures a.Acquire? ==> a.c in s.stages && s.stages[a.c].Checked?
  {
  }

  lemma StepKeepsSlots(s: State, a: Action)
    requires SlotsOk(s)
    ensures SlotsOk(Step(s, a))
  {
    if Enabled(s, a) && !a.Shutdown? && !a.CloseOne? {
      SlotMoves(s, a);
      var r := Step(s, a);
      assert r.stages == s.stages[a.c := To(s, a)] && r.limiter == LimiterAfter(s, a);
      if GivesBack(a) {
        SlotsGiven(s.limiter, s.stages, s.acquired, s.released, a.c, To(s, a));
      } else if a.Acquire? && To(s, a).Slotted? {
        SlotsTaken(s.limiter, s.stages, s.acquired, s.released, a.c);
      } else {
        assert r.limiter == s.limiter && r.acquired == s.acquired && r.released == s.released;
        SlotsStay(s.limiter, s.stages, s.acquired, s.released, a.c, To(s, a));
      }
    }
  }

  // The wait group.

  lemma WaitsStay(wg: int, stages: Stages, keys: map<Id, string>, done: set<Id>, c: Id, st: Stage)
    requires Waits(wg, stages, keys, done)
    requires Awaited(st) <==> c in stages && Awaited(stages[c])
    ensures Waits(wg, stages[c := st], keys, done)
  {
  }

  lemma OneMoreKey(keys: map<Id, string>, done: set<Id>, c: Id, key: string)
    requires c !in keys && c !in done
    ensures |keys[c := key].Keys - done| == |keys.Keys - done| + 1
  {
    assert keys[c := key].Keys - done == (keys.Keys - done) + {c};
  }

  lemma WaitsForMore(stages: Stages, keys: map<Id, string>, done: set<Id>, c: Id, st: Stage, key: string)
    requires WaitsFor(stages, keys, done)
    requires c !in keys && Awaited(st)
    ensures WaitsFor(stages[c := st], keys[c := key], done)
  {
  }

  lemma WaitsAdded(wg: int, stages: Stages, keys: map<Id, string>, done: set<Id>, c: Id, st: Stage, key: string)
    requires Waits(wg, stages, keys, done)
    requires c !in keys && Awaited(st)
    ensures Waits(wg + 1, stages[c := st], keys[c := key], done)
  {
    WaitsForMore(stages, keys, done, c, st, key);
    OneMoreKey(keys, done, c, key);
  }

  lemma WaitsDone(wg: int, stages: Stages, keys: map<Id, string>, done: set<Id>, c: Id)
    requires Waits(wg, stages, keys, done)
    requires c in stages && stages[c].Released?
    ensures c !in done
    ensures Waits(wg - 1, stages[c := Gone], keys, done + {c})
  {
    assert keys.Keys - (done + {c}) == (keys.Keys - done) - {c};
    assert c in keys.Keys - done;
  }

  /** Register makes a session awaited and Done ends that; every other step keeps it. */
  lemma WaitMoves(s: State, a: Action)
    requires Enabled(s, a) && !a.Shutdown? && !a.CloseOne? && EntryOk(s)
    ensures Joins(s, a) ==> a.c !in s.keys && Awaited(To(s, a))
    ensures a.Done? ==> a.c in s.stages && s.stages[a.c].Released? && To(s, a).Gone?
    ensures !a.Done? && !Joins(s, a) ==> (Awaited(To(s, a)) <==> a.c in s.stages && Awaited(s.stages[a.c]))
    ensures RegistryAfter(s, a).wg == s.reg.wg + (if Joins(s, a) then 1 else if a.Done? then -1 else 0)
  {
  }

  lemma StepKeepsWait(s: State, a: Action)
    requires WaitOk(s) && EntryOk(s)
    ensures WaitOk(Step(s, a))
  {
    if Enabled(s, a) && !a.Shutdown? && !a.CloseOne? {
      WaitMoves(s, a);
      var r := Step(s, a);
      assert r.stages == s.stages[a.c := To(s, a)];
      if a.Done? {
        WaitsDone(s.reg.wg, s.stages, s.keys, s.done, a.c);
      } else if Joins(s, a) {
        WaitsAdded(s.reg.wg, s.stages, s.keys, s.done, a.c, To(s, a), a.key);
      } else {
        WaitsStay(s.reg.wg, s.stages, s.keys, s.done, a.c, To(s, a));
      }
    }
  }

  lemma StepKeepsEntry(s: State, a: Action)
    requires EntryOk(s)
    ensures EntryOk(Step(s, a))
  {
  }

  // The registry.

  lemma StepKeepsList(s: State, a: Action)
    requires ListOk(s)
    ensures ListOk(Step(s, a))
  {
  }

  lemma RegisterKeepsDevices(reg: Registry, keys: map<Id, string>, latest: map<string, Id>, c: Id, key: string)
    requires Devices(reg, keys, latest) && c !in keys && c !in reg.sessions && !reg.closed
    ensures Devices(Registered(reg, c, key), keys[c := key], if |key| > 0 then latest[key := c] else latest)
  {
  }

  lemma RemoveKeepsDevices(reg: Registry, keys: map<Id, string>, latest: map<string, Id>, c: Id)
    requires Devices(reg, keys, latest) && c in keys && c in reg.sessions
    ensures Devices(Removed(reg, c, keys[c]), keys, latest)
  {
  }

  lemma StepKeepsDevice(s: State, a: Action)
    requires DeviceOk(s) && ListOk(s) && EntryOk(s)
    ensures DeviceOk(Step(s, a))
  {
    var r := Step(s, a);
    if Enabled(s, a) && Joins(s, a) {
      RegisterKeepsDevices(s.reg, s.keys, s.latest, a.c, a.key);
    } else if Enabled(s, a) && a.Remove? {
      RemoveKeepsDevices(s.reg, s.keys, s.latest, a.c);
    } else {
      assert r.keys == s.keys && r.latest == s.latest && r.reg.sessions == s.reg.sessions && r.reg.byDevice == s.reg.byDevice;
    }
  }

  lemma RegisterKeepsEvictions(reg: Registry, keys: map<Id, string>, latest: map<string, Id>, evictedBy: map<Id, Id>, c: Id, key: string)
    requires Devices(reg, keys, latest) && Evictions(reg.sessions, keys, latest, evictedBy)
    requires c !in keys && !reg.closed
    ensures Evictions(reg.sessions + {c}, keys[c := key], if |key| > 0 then latest[key := c] else latest,
                      if Rival(reg, c, key).Some? then evictedBy[Rival(reg, c, key).value := c] else evictedBy)
  {
  }

  lemma StepKeepsEviction(s: State, a: Action)
    requires EvictionOk(s) && DeviceOk(s) && ListOk(s) && EntryOk(s)
    ensures EvictionOk(Step(s, a))
  {
    var r := Step(s, a);
    if Enabled(s, a) && Joins(s, a) {
      RegisterKeepsEvictions(s.reg, s.keys, s.latest, s.evictedBy, a.c, a.key);
    } else {
      assert r.keys == s.keys && r.latest == s.latest && r.evictedBy == s.evictedBy;
      assert r.reg.sessions <= s.reg.sessions;
    }
  }

  lemma StepKeepsClose(s: State, a: Action)
    requires CloseOk(s)
    ensures CloseOk(Step(s, a))
  {
  }

  lemma StepNeverDoubles(s: State, a: Action)
    requires SlotsOk(s) && WaitOk(s) && !s.doubled
    ensures !Step(s, a).doubled
  {
  }

  lemma StepKeepsInv(s: State, a: Action)
    requires Inv(s)
    ensures Inv(Step(s, a))
  {
    StepKeepsSlots(s, a);
    StepKeepsWait(s, a);
    StepKeepsEntry(s, a);
    StepKeepsList(s, a);
    StepKeepsDevice(s, a);
    StepKeepsEviction(s, a);
    StepKeepsClose(s, a);
    StepNeverDoubles(s, a);
  }

  lemma {:induction false} RunKeepsInv(s: State, actions: seq<Action>)
    requires Initial(s)
    ensures Inv(Run(s, actions))
  {
    if |actions| > 0 {
      RunKeepsInv(s, actions[..|actions| - 1]);
      StepKeepsInv(Run(s, actions[..|actions| - 1]), actions[|actions| - 1]);
    }
  }

  // ----- Main results -----

  /** In every interleaving: the active count is the grants not yet released, within 0 and the maximum; no
      release and no wg.Done runs twice; a connection that is gone gave back the slot it took. */
  lemma SlotsAreConserved(s: State, actions: seq<Action>)
    requires Initial(s)
    ensures var r := Run(s, actions);
      && r.limiter.active == |r.acquired - r.released|
      && 0 <= r.limiter.active <= r.limiter.max
      && r.released <= r.acquired
      && !r.doubled
      && forall c: Id :: At(r, c, Gone) && c in r.acquired ==> c in r.released
  {
    RunKeepsInv(s, actions);
  }

  predicate IsLatest(c: Id, keys: map<Id, string>, latest: map<string, Id>) {
    c in keys && keys[c] in latest && latest[keys[c]] == c
  }

  predicate Keyed(c: Id, keys: map<Id, string>) { c in keys && |keys[c]| > 0 }

  /** In every interleaving: a device is mapped exactly as long as the session registered last under its key
      is registered, and to that one; any other registered session under the key was evicted, and its Close
      was called or is the next step of its evictor. */
  lemma OneSessionPerDevice(s: State, actions: seq<Action>)
    requires Initial(s)
    ensures var r := Run(s, actions);
      && (forall k: string :: k in r.reg.byDevice <==> k in r.latest && r.latest[k] in r.reg.sessions)
      && (forall k: string :: k in r.reg.byDevice ==> r.reg.byDevice[k] == r.latest[k] && IsLatest(r.latest[k], r.keys, r.latest))
      && (forall c: Id :: c in r.reg.sessions && Keyed(c, r.keys) && !IsLatest(c, r.keys, r.latest) ==>
            c in r.evictedBy && (c in r.closeCalls || Evicts(r.stages, r.evictedBy[c], c)))
  {
    RunKeepsInv(s, actions);
    var r := Run(s, actions);
    forall c: Id | c in r.reg.sessions && Keyed(c, r.keys) && !IsLatest(c, r.keys, r.latest) ensures c in r.evictedBy {
      assert Outdated(c, r.keys, r.latest);
    }
  }

  lemma RemoveStep(s: State, c: Id)
    requires ListOk(s) && Enabled(s, Remove(c))
    ensures c in s.keys && Step(s, Remove(c)).reg == Removed(s.reg, c, s.keys[c])
  {
  }

  /** A cleanup unmaps its device exactly when its session is the one registered last under the key; the
      cleanup of an evicted session leaves every mapping as it is. */
  lemma LateCleanupKeepsTheNewer(s: State, actions: seq<Action>, c: Id)
    requires Initial(s) && Enabled(Run(s, actions), Remove(c))
    ensures var r := Run(s, actions);
      && c in r.keys
      && Step(r, Remove(c)).reg.byDevice ==
           (if IsLatest(c, r.keys, r.latest) then r.reg.byDevice - {r.keys[c]} else r.reg.byDevice)
      && (c in r.evictedBy ==> Step(r, Remove(c)).reg.byDevice == r.reg.byDevice)
  {
    RunKeepsInv(s, actions);
    var r := Run(s, actions);
    RemoveStep(r, c);
    assert c in r.evictedBy ==> Outdated(c, r.keys, r.latest);
  }

  /** What no later step undoes once the registry is closed. */
  ghost predicate Shuts(s: State, r: State) {
    s.reg.closed ==> r.reg.closed && r.keys == s.keys && r.reg.wg <= s.reg.wg && r.reg.sessions <= s.reg.sessions && r.snapshot == s.snapshot
  }

  lemma StepShuts(s: State, a: Action)
    ensures Shuts(s, Step(s, a))
  {
    var r := Step(s, a);
    if s.reg.closed && r != s {
      assert r.snapshot == s.snapshot && r.keys == s.keys;
      assert r.reg == RegistryAfter(s, a);
    }
  }

  /** Once shutdown begins no session is registered any more and the wait count never rises. */
  lemma {:induction false} WaitNeverRises(s: State, actions: seq<Action>)
    ensures Shuts(s, Run(s, actions))
  {
    if |actions| > 0 {
      WaitNeverRises(s, actions[..|actions| - 1]);
      StepShuts(Run(s, actions[..|actions| - 1]), actions[|actions| - 1]);
    }
  }

  /** Holds a slot but is not registered. */
  predicate Pending(st: Stage) { st.Slotted? || st.Upgraded? || st.Refused? }

  lemma NobodyAwaited(r: State)
    requires Inv(r) && r.reg.wg == 0
    ensures forall c: Id :: c in r.keys ==> c in r.done
    ensures r.reg.sessions == {} && r.reg.byDevice == map[]
  {
    assert r.keys.Keys - r.done == {};
    forall c: Id | c in r.keys ensures c in r.done {
      assert c in r.keys.Keys - r.done || c in r.done;
    }
    assert forall c: Id :: c in r.reg.sessions ==> c in r.keys && c !in r.done;
    assert r.reg.byDevice.Keys == {};
  }

  lemma SlotsLeft(r: State)
    requires Inv(r) && Granted(r) && forall c: Id :: c in r.keys ==> c in r.done
    ensures forall c: Id :: c in r.keys ==> c in r.released
    ensures forall c: Id :: c in r.acquired && c !in r.released <==> c in r.stages && Pending(r.stages[c])
    ensures forall c: Id :: c in r.acquired && c !in r.released ==> c !in r.keys
  {
  }

  lemma AllFree(r: State)
    requires SlotsOk(r) && forall c: Id :: c in r.acquired && c !in r.released <==> c in r.stages && Pending(r.stages[c])
    ensures r.limiter.active == 0 <==> forall c: Id :: c in r.stages ==> !Pending(r.stages[c])
  {
    if r.limiter.active == 0 {
      forall c: Id | c in r.stages ensures !Pending(r.stages[c]) {
        assert c !in r.acquired - r.released;
      }
    } else {
      var c: Id :| c in r.acquired - r.released;
    }
  }

  /** When the wait of Shutdown is over: every session ever registered was removed, gave its slot back and
      was counted down; the slots still in use are exactly those of connections that hold one without being
      registered, so all are free if and only if there is none. While it is not, every session still
      registered is among those that Shutdown closes. */
  lemma ShutdownIsComplete(s: State, actions: seq<Action>)
    requires Initial(s) && Run(s, actions).reg.closed
    ensures var r := Run(s, actions);
      && r.reg.sessions <= r.snapshot
      && (r.reg.wg == 0 ==>
            && r.reg.sessions == {} && r.reg.byDevice == map[]
            && (forall c: Id :: c in r.keys ==> c in r.released && c in r.done)
            && (forall c: Id :: c in r.acquired && c !in r.released <==> c in r.stages && Pending(r.stages[c]))
            && (forall c: Id :: c in r.acquired && c !in r.released ==> c !in r.keys)
            && (r.limiter.active == 0 <==> forall c: Id :: c in r.stages ==> !Pending(r.stages[c])))
  {
    RunKeepsInv(s, actions);
    AcquiredBeforeRegister(s, actions);
    var r := Run(s, actions);
    if r.reg.wg == 0 {
      NobodyAwaited(r);
      SlotsLeft(r);
      AllFree(r);
    }
  }

  ghost predicate Granted(s: State) {
    forall c: Id :: c in s.stages && !s.stages[c].Checked? && (c in s.keys || !s.stages[c].Gone?) ==> c in s.acquired
  }

  lemma {:induction false} AcquiredBeforeRegister(s: State, actions: seq<Action>)
    requires Initial(s)
    ensures Granted(Run(s, actions))
  {
    if |actions| > 0 {
      AcquiredBeforeRegister(s, actions[..|actions| - 1]);
      RunKeepsInv(s, actions[..|actions| - 1]);
      StepKeepsGranted(Run(s, actions[..|actions| - 1]), actions[|actions| - 1]);
    }
  }

  lemma StepKeepsGranted(s: State, a: Action)
    requires Granted(s) && EntryOk(s)
    ensures Granted(Step(s, a))
  {
  }

  /** A finished shutdown does not mean that all slots are free: a connection that passed the check of
      Acquire before may take one after. */
  lemma SlotTakenAfterShutdown(s: State, c: Id)
    requires Initial(s)
    ensures var r := Run(s, [Check(c), Shutdown, Acquire(c)]);
      r.reg.closed && r.reg.wg == 0 && r.limiter.active == 1
  {
    var as3 := [Check(c), Shutdown, Acquire(c)];
    var as2 := [Check(c), Shutdown];
    assert as3[..2] == as2 && as2[..1] == [Check(c)] && [Check(c)][..0] == [];
    assert Run(s, [Check(c)]) == Step(s, Check(c));
    assert Run(s, as2) == Step(Step(s, Check(c)), Shutdown);
  }

  // ----- What each step does, in every interleaving -----

  lemma {:induction false} MaxStays(s: State, actions: seq<Action>)
    ensures Run(s, actions).limiter.max == s.limiter.max
  {
    if |actions| > 0 {
      MaxStays(s, actions[..|actions| - 1]);
    }
  }

  /** A connection is granted a slot exactly when fewer slots are taken and not given back than the maximum; a
      refused one is gone. */
  lemma SlotsAreGrantedExactly(s: State, actions: seq<Action>, c: Id)
    requires Initial(s) && At(Run(s, actions), c, Checked)
    ensures var r := Run(s, actions);
      var t := Step(r, Acquire(c));
      && c !in r.acquired
      && (c in t.acquired <==> |r.acquired - r.released| < s.limiter.max)
      && (At(t, c, Slotted) <==> c in t.acquired) && (At(t, c, Gone) <==> c !in t.acquired)
  {
    RunKeepsInv(s, actions);
    MaxStays(s, actions);
  }

  /** A connection passes the first check exactly while the registry is open. */
  lemma OpenMeansChecked(s: State, c: Id)
    requires c !in s.stages
    ensures At(Step(s, Check(c)), c, Checked) <==> !s.reg.closed
    ensures At(Step(s, Check(c)), c, Gone) <==> s.reg.closed
  {
  }

  /** A session is registered exactly while the registry is open; it is then the one its device is mapped to, and
      it goes on to evict exactly the one the device was mapped to. */
  lemma OpenMeansRegistered(s: State, actions: seq<Action>, c: Id, key: string)
    requires Initial(s) && At(Run(s, actions), c, Upgraded)
    ensures var r := Run(s, actions);
      var t := Step(r, Register(c, key));
      && (c in t.reg.sessions <==> !r.reg.closed)
      && (At(t, c, Refused) <==> r.reg.closed)
      && (!r.reg.closed && |key| > 0 ==> key in t.reg.byDevice && t.reg.byDevice[key] == c)
      && (forall d: Id :: At(t, c, Evicting(key, d)) <==>
            !r.reg.closed && |key| > 0 && key in r.reg.byDevice && r.reg.byDevice[key] == d)
  {
    RunKeepsInv(s, actions);
    RegisterStep(Run(s, actions), c, key);
  }

  lemma RegisterStep(r: State, c: Id, key: string)
    requires ListOk(r) && DeviceOk(r) && At(r, c, Upgraded)
    ensures var t := Step(r, Register(c, key));
      && (c in t.reg.sessions <==> !r.reg.closed)
      && (At(t, c, Refused) <==> r.reg.closed)
      && (!r.reg.closed && |key| > 0 ==> key in t.reg.byDevice && t.reg.byDevice[key] == c)
      && (forall d: Id :: At(t, c, Evicting(key, d)) <==>
            !r.reg.closed && |key| > 0 && key in r.reg.byDevice && r.reg.byDevice[key] == d)
  {
    assert key in r.reg.byDevice ==> r.reg.byDevice[key] in r.reg.sessions;
  }

  /** The first Shutdown closes the registry and takes hold of all registered sessions, and every one of them can
      then be closed. */
  lemma ShutdownTakesAll(s: State)
    requires !s.reg.closed
    ensures var t := Step(s, Shutdown);
      && t.reg == s.reg.(closed := true) && t.snapshot == s.reg.sessions
      && forall c: Id :: c in s.reg.sessions ==> c in Step(t, CloseOne(c)).closeCalls
  {
  }

  /** The action by which a connection goes on when its peer is gone. */
  function Onward(c: Id, st: Stage): Action {
    match st
    case Checked => Acquire(c)
    case Slotted => Accept(c, false)
    case Upgraded => Register(c, "")
    case Refused => GiveBack(c)
    case Evicting(_, _) => CloseOld(c)
    case Running(_) => Remove(c)
    case Leaving => Release(c)
    case Released => Done(c)
    case Gone => Check(c)
  }

  function Distance(st: Stage): nat {
    match st
    case Checked => 7
    case Slotted => 6
    case Upgraded => 5
    case Refused => 1
    case Evicting(_, _) => 4
    case Running(_) => 3
    case Leaving => 2
    case Released => 1
    case Gone => 0
  }

  lemma OnwardIsCloser(s: State, c: Id)
    requires c in s.stages && !s.stages[c].Gone?
    ensures var a := Onward(c, s.stages[c]);
      c in Step(s, a).stages && Distance(Step(s, a).stages[c]) < Distance(s.stages[c])
  {
  }

  /** Wherever a connection stands, its own next steps lead it out, with the slot it took given back. */
  lemma {:induction false} EveryoneCanLeave(s: State, c: Id) returns (actions: seq<Action>)
    requires Inv(s) && c in s.stages
    ensures At(Run(s, actions), c, Gone)
    ensures c in Run(s, actions).acquired ==> c in Run(s, actions).released
    ensures Inv(Run(s, actions))
    decreases Distance(s.stages[c])
  {
    if s.stages[c].Gone? {
      actions := [];
    } else {
      var a := Onward(c, s.stages[c]);
      OnwardIsCloser(s, c);
      StepKeepsInv(s, a);
      var rest := EveryoneCanLeave(Step(s, a), c);
      actions := [a] + rest;
      RunCons(s, a, rest);
    }
  }

  lemma {:induction false} RunCons(s: State, a: Action, rest: seq<Action>)
    ensures Run(s, [a] + rest) == Run(Step(s, a), rest)
  {
    var n := |rest|;
    if n == 0 {
      assert ([a] + rest)[..0] == [] && Run(s, []) == s;
    } else {
      RunCons(s, a, rest[..n - 1]);
      assert ([a] + rest)[..n] == [a] + rest[..n - 1];
    }
  }

  // ----- The objects -----

  class SessionLimiter {
    var active: int
    const max: int

    ghost function Now(): Limiter reads this { Limiter(active, max) }

    constructor (maxConcurrentSessions: int)
      ensures Now() == Limiter(0, if maxConcurrentSessions > 0 then maxConcurrentSessions else 1)
    {
      active := 0;
      max := if maxConcurrentSessions <= 0 then 1 else maxConcurrentSessions;
    }

    method Acquire() returns (grant: Grant?)
      modifies this
      ensures grant != null <==> TryAcquire(old(Now())).Some?
      ensures Now() == if grant == null then old(Now()) else TryAcquire(old(Now())).value
      ensures grant != null ==> fresh(grant) && grant.limiter == this && !grant.used
    {
      if active >= max {
        return null;
      }
      active := active + 1;
      grant := new Grant(this);
    }
  }

  /** The release closure. */
  class Grant {
    const limiter: SessionLimiter
    var used: bool

    constructor (limiter: SessionLimiter)
      ensures this.limiter == limiter && !used
    {
      this.limiter, used := limiter, false;
    }

    method Release()
      modifies this, limiter
      ensures used
      ensures limiter.active == old(limiter.active) - (if old(used) then 0 else 1)
    {
      if !used {
        used := true;
        limiter.active := limiter.active - 1;
      }
    }
  }

  class SessionRegistry {
    var sessions: set<Id>
    var byDevice: map<string, Id>
    var wg: int
    var closed: bool

    ghost function Now(): Registry reads this { Registry(sessions, byDevice, wg, closed) }

    constructor ()
      ensures Now() == Registry({}, map[], 0, false)
    {
      sessions, byDevice, wg, closed := {}, map[], 0, false;
    }

    /** The locked part of Register. */
    method Register(c: Id, key: string) returns (ok: bool, rival: Option<Id>)
      modifies this
      ensures ok == !old(closed) && Now() == Registered(old(Now()), c, key)
      ensures rival == if ok then Rival(old(Now()), c, key) else None
    {
      rival := None;
      if closed {
        return false, None;
      }
      if |key| > 0 {
        if key in byDevice && byDevice[key] != c {
          rival := Some(byDevice[key]);
        }
        byDevice := byDevice[key := c];
      }
      sessions := sessions + {c};
      wg := wg + 1;
      ok := true;
    }

    /** The locked part of the cleanup. */
    method Remove(c: Id, key: string)
      modifies this
      ensures Now() == Removed(old(Now()), c, key)
    {
      sessions := sessions - {c};
      if |key| > 0 && key in byDevice && byDevice[key] == c {
        byDevice := byDevice - {key};
      }
    }

    /** The locked part of Shutdown: the sessions to close, none when it is not the first. */
    method Shutdown() returns (active: set<Id>)
      modifies this
      ensures Now() == old(Now()).(closed := true)
      ensures active == if old(closed) then {} else old(sessions)
    {
      if closed {
        return {};
      }
      closed := true;
      active := sessions;
    }
  }
}
