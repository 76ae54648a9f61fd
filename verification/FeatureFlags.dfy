/** Feature flags: a snapshot per node, a shared cache with a TTL, and the database. Times are microseconds. */
module FeatureFlags {
  import opened Common

  const REFRESH: nat := 30_000_000

  datatype Flag = Flag(enabled: bool, rollout: int)

  type Flags = map<string, Flag>

  // ------------------------------------------------------------------ answers

  /** Whether a flag is on for a user, given the 32-bit hash of the key and the user id. */
  function Answer(flags: Flags, key: string, hash: nat): bool {
    key in flags && flags[key].enabled
    && (flags[key].rollout >= 100 || (flags[key].rollout > 0 && hash % 100 < flags[key].rollout))
  }

  /** Raising a rollout takes the feature from nobody. */
  lemma RolloutIsMonotone(flags: Flags, flags': Flags, key: string, hash: nat)
    requires key in flags && key in flags' && flags[key].enabled == flags'[key].enabled
    requires flags[key].rollout <= flags'[key].rollout
    ensures Answer(flags, key, hash) ==> Answer(flags', key, hash)
  {
  }

  /** How many of the first n hash values are let in. */
  function Admitted(flags: Flags, key: string, n: nat): nat {
    if n == 0 then 0 else Admitted(flags, key, n - 1) + if Answer(flags, key, n - 1) then 1 else 0
  }

  /** The share of users a flag is meant for: nobody while it is absent or switched off. */
  function Percent(flags: Flags, key: string): nat {
    if key !in flags || !flags[key].enabled || flags[key].rollout <= 0 then 0
    else if flags[key].rollout >= 100 then 100
    else flags[key].rollout
  }

  lemma {:induction false} AdmittedUpTo(flags: Flags, key: string, n: nat)
    requires n <= 100
    ensures Admitted(flags, key, n) == if n <= Percent(flags, key) then n else Percent(flags, key)
  {
    if n > 0 {
      AdmittedUpTo(flags, key, n - 1);
    }
  }

  /**
   * A rollout of p percent lets in exactly p of every hundred hash values, whatever was stored:
   * all of them at 100 or more, and none at 0 or less, or when the flag is off or not there.
   */
  lemma {:induction false} RolloutIsExact(flags: Flags, key: string, hundreds: nat)
    ensures Admitted(flags, key, 100 * hundreds) == Percent(flags, key) * hundreds
    ensures key !in flags || !flags[key].enabled ==> forall n: nat :: Admitted(flags, key, n) == 0
  {
    if hundreds > 0 {
      RolloutIsExact(flags, key, hundreds - 1);
      NextHundred(flags, key, hundreds - 1, 100);
      AdmittedUpTo(flags, key, 100);
    }
    forall n: nat | key !in flags || !flags[key].enabled ensures Admitted(flags, key, n) == 0 {
      OffAdmitsNobody(flags, key, n);
    }
  }

  lemma {:induction false} OffAdmitsNobody(flags: Flags, key: string, n: nat)
    requires key !in flags || !flags[key].enabled
    ensures Admitted(flags, key, n) == 0
  {
    if n > 0 {
      OffAdmitsNobody(flags, key, n - 1);
    }
  }

  lemma SameBucket(hundreds: nat, n: nat)
    requires n < 100
    ensures (100 * hundreds + n) % 100 == n % 100
  {
    DivisionUnique(100 * hundreds + n, 100, hundreds, n);
  }

  lemma {:induction false} NextHundred(flags: Flags, key: string, hundreds: nat, n: nat)
    requires n <= 100
    ensures Admitted(flags, key, 100 * hundreds + n) == Admitted(flags, key, 100 * hundreds) + Admitted(flags, key, n)
  {
    if n > 0 {
      NextHundred(flags, key, hundreds, n - 1);
      SameBucket(hundreds, n - 1);
    }
  }

  // -------------------------------------------------------------- the machine

  /** What the table held from `at` until the next version. */
  datatype Version = Version(at: nat, flags: Flags)

  /** A copy of the table, the version it is a copy of, and the latest moment known to have held it. */
  datatype Snapshot = Snapshot(flags: Flags, version: nat, heldAt: nat)

  datatype Entry = Entry(snapshot: Snapshot, expires: nat)

  datatype Node = Node(snapshot: Snapshot, loadedAt: Option<nat>)

  /** A load in progress; `unpublished` if it read the database and has yet to write the cache. */
  datatype Load = Load(node: nat, snapshot: Snapshot, obtainedAt: nat, unpublished: bool)

  /** `owed` is when the table was first written since the shared entry was last dropped. */
  datatype State = State(now: nat, history: seq<Version>, owed: Option<nat>, cache: Option<Entry>,
                         nodes: map<nat, Node>, loads: map<nat, Load>)

  /** How long a load may take from its read to its cache write, and from its read or hit to the snapshot. */
  datatype Timing = Timing(publish: nat, install: nat)

  datatype Action =
    | Tick(elapsed: nat)
    | Write(key: string, enabled: bool, rollout: int)
    | ResetNode(node: nat)
    | DropCache
    | Evict
    | BeginHit(load: nat, node: nat)
    | BeginMiss(load: nat, node: nat, publishes: bool)
    | ReadThrough(load: nat, node: nat)
    | Publish(load: nat)
    | Install(load: nat)
    | Abandon(load: nat)

  predicate AllInTime(loads: map<nat, Load>, timing: Timing, now: nat) {
    forall l :: l in loads ==> InTime(loads[l], timing, now)
  }

  predicate InTime(load: Load, timing: Timing, now: nat) {
    && now <= load.obtainedAt + timing.install
    && (load.unpublished ==> now <= load.obtainedAt + timing.publish)
  }

  function Latest(s: State): Snapshot
    requires s.history != []
  {
    Snapshot(s.history[|s.history| - 1].flags, |s.history| - 1, s.now)
  }

  /** The latest moment at which a version was in the table. */
  function HeldUntil(s: State, version: nat): nat {
    if version + 1 < |s.history| then s.history[version + 1].at else s.now
  }

  function AfterWrite(s: State, key: string, flag: Flag): State {
    var flags := if s.history == [] then map[] else s.history[|s.history| - 1].flags;
    s.(history := s.history + [Version(s.now, flags[key := flag])],
       owed := if s.owed.None? then Some(s.now) else s.owed)
  }

  function AfterHit(s: State, load: nat, node: nat): State {
    if load in s.loads || s.cache.None? || s.now >= s.cache.value.expires then s
    else
      var snapshot := s.cache.value.snapshot;
      s.(loads := s.loads[load := Load(node, snapshot.(heldAt := HeldUntil(s, snapshot.version)), s.now, false)])
  }

  function AfterMiss(s: State, load: nat, node: nat, publishes: bool): State {
    if load in s.loads || s.history == [] then s
    else s.(loads := s.loads[load := Load(node, Latest(s), s.now, publishes)])
  }

  function AfterPublish(s: State, load: nat): State {
    if load !in s.loads || !s.loads[load].unpublished then s
    else
      s.(cache := Some(Entry(s.loads[load].snapshot, s.now + REFRESH)),
         loads := s.loads[load := s.loads[load].(unpublished := false)])
  }

  function AfterInstall(s: State, load: nat): State {
    if load !in s.loads || s.loads[load].unpublished then s
    else s.(nodes := s.nodes[s.loads[load].node := Node(s.loads[load].snapshot, Some(s.now))],
            loads := s.loads - {load})
  }

  /** A read of the table and the write of the cache in one step. */
  function AfterReadThrough(s: State, load: nat, node: nat): State {
    AfterPublish(AfterMiss(s, load, node, true), load)
  }

  /** Time waits for the deadlines of the loads in progress. */
  function AfterTick(timing: Timing, s: State, elapsed: nat): State {
    if AllInTime(s.loads, timing, s.now + elapsed) then s.(now := s.now + elapsed) else s
  }

  function Step(timing: Timing, s: State, a: Action): State {
    match a
    case Tick(elapsed) => AfterTick(timing, s, elapsed)
    case Write(key, enabled, rollout) => if 0 <= rollout <= 100 then AfterWrite(s, key, Flag(enabled, rollout)) else s
    case ResetNode(node) =>
      if node in s.nodes then s.(nodes := s.nodes[node := s.nodes[node].(loadedAt := None)]) else s
    case DropCache => s.(cache := None, owed := None)
    case Evict => s.(cache := None)
    case BeginHit(load, node) => AfterHit(s, load, node)
    case BeginMiss(load, node, publishes) => AfterMiss(s, load, node, publishes)
    case ReadThrough(load, node) => if load in s.loads then s else AfterReadThrough(s, load, node)
    case Publish(load) => AfterPublish(s, load)
    case Install(load) => AfterInstall(s, load)
    case Abandon(load) => s.(loads := s.loads - {load})
  }

  function RunAll(timing: Timing, s: State, actions: seq<Action>): State {
    if actions == [] then s else Step(timing, RunAll(timing, s, actions[..|actions| - 1]), actions[|actions| - 1])
  }

  function Initial(flags: Flags): State {
    State(0, [Version(0, flags)], None, None, map[], map[])
  }

  predicate Fresh(s: State, node: nat) {
    node in s.nodes && s.nodes[node].loadedAt.Some? && s.now < s.nodes[node].loadedAt.value + REFRESH
  }

  /** The table had this content at time t. */
  predicate HeldAt(history: seq<Version>, flags: Flags, t: nat) {
    exists i :: 0 <= i < |history| && history[i].flags == flags && history[i].at <= t
                && (i + 1 < |history| ==> t <= history[i + 1].at)
  }

  /** The content was in the table at a moment less than `bound` ago. */
  ghost predicate HeldWithin(s: State, flags: Flags, bound: nat) {
    exists t: nat :: HeldAt(s.history, flags, t) && t <= s.now && s.now < t + bound
  }

  // --------------------------------------------------------------- staleness

  predicate HistoryOk(history: seq<Version>, now: nat) {
    && history != []
    && (forall i :: 0 <= i < |history| ==> history[i].at <= now)
    && (forall i, j :: 0 <= i < j < |history| ==> history[i].at <= history[j].at)
  }

  predicate SnapshotOk(history: seq<Version>, now: nat, p: Snapshot) {
    && p.version < |history| && p.flags == history[p.version].flags
    && history[p.version].at <= p.heldAt <= now
    && (p.version + 1 < |history| ==> p.heldAt <= history[p.version + 1].at)
  }

  predicate EntryOk(timing: Timing, history: seq<Version>, now: nat, entry: Entry) {
    SnapshotOk(history, now, entry.snapshot) && entry.expires <= entry.snapshot.heldAt + timing.publish + REFRESH
  }

  predicate LoadOk(timing: Timing, history: seq<Version>, now: nat, load: Load) {
    && SnapshotOk(history, now, load.snapshot) && load.obtainedAt <= now && InTime(load, timing, now)
    && (load.unpublished ==> load.snapshot.heldAt == load.obtainedAt)
    && load.obtainedAt < load.snapshot.heldAt + timing.publish + REFRESH
  }

  predicate NodeOk(timing: Timing, history: seq<Version>, now: nat, node: Node) {
    node.loadedAt.Some? ==>
      && SnapshotOk(history, now, node.snapshot) && node.loadedAt.value <= now
      && node.loadedAt.value < node.snapshot.heldAt + timing.publish + REFRESH + timing.install
  }

  ghost predicate Inv(timing: Timing, s: State) {
    && HistoryOk(s.history, s.now)
    && (s.cache.Some? ==> EntryOk(timing, s.history, s.now, s.cache.value))
    && (forall l :: l in s.loads ==> LoadOk(timing, s.history, s.now, s.loads[l]))
    && (forall n :: n in s.nodes ==> NodeOk(timing, s.history, s.now, s.nodes[n]))
  }

  /** Copies stay valid as time passes and versions are added. */
  lemma LaterKeepsInv(timing: Timing, s: State, t: State, added: seq<Version>)
    requires Inv(timing, s) && HistoryOk(t.history, t.now) && s.now <= t.now
    requires t.history == s.history + added && |added| <= 1 && forall v :: v in added ==> v.at == s.now
    requires t.cache == s.cache && t.loads == s.loads && t.nodes == s.nodes
    requires AllInTime(t.loads, timing, t.now)
    ensures Inv(timing, t)
  {
    assert added != [] ==> t.history[|s.history|] == added[0] && added[0] in added;
    forall l | l in t.loads ensures LoadOk(timing, t.history, t.now, t.loads[l]) {
      assert LoadOk(timing, s.history, s.now, s.loads[l]);
    }
    forall n | n in t.nodes ensures NodeOk(timing, t.history, t.now, t.nodes[n]) {
      assert NodeOk(timing, s.history, s.now, s.nodes[n]);
    }
  }

  lemma TimeKeepsInv(timing: Timing, s: State, now: nat)
    requires Inv(timing, s) && s.now <= now && AllInTime(s.loads, timing, now)
    ensures Inv(timing, s.(now := now))
  {
    forall l | l in s.loads ensures LoadOk(timing, s.history, now, s.loads[l]) {
      assert LoadOk(timing, s.history, s.now, s.loads[l]);
    }
    forall n | n in s.nodes ensures NodeOk(timing, s.history, now, s.nodes[n]) {
      assert NodeOk(timing, s.history, s.now, s.nodes[n]);
    }
  }

  lemma WriteKeepsInv(timing: Timing, s: State, key: string, flag: Flag)
    requires Inv(timing, s)
    ensures Inv(timing, AfterWrite(s, key, flag))
  {
    assert forall l :: l in s.loads ==> LoadOk(timing, s.history, s.now, s.loads[l]);
    LaterKeepsInv(timing, s, AfterWrite(s, key, flag), AfterWrite(s, key, flag).history[|s.history|..]);
  }

  lemma HitKeepsInv(timing: Timing, s: State, load: nat, node: nat)
    requires Inv(timing, s)
    ensures Inv(timing, AfterHit(s, load, node))
  {
  }

  lemma MissKeepsInv(timing: Timing, s: State, load: nat, node: nat, publishes: bool)
    requires Inv(timing, s)
    ensures Inv(timing, AfterMiss(s, load, node, publishes))
  {
  }

  lemma PublishKeepsInv(timing: Timing, s: State, load: nat)
    requires Inv(timing, s)
    ensures Inv(timing, AfterPublish(s, load))
  {
    assert load in s.loads ==> LoadOk(timing, s.history, s.now, s.loads[load]);
  }

  lemma InstallKeepsInv(timing: Timing, s: State, load: nat)
    requires Inv(timing, s)
    ensures Inv(timing, AfterInstall(s, load))
  {
    assert load in s.loads ==> LoadOk(timing, s.history, s.now, s.loads[load]);
  }

  lemma StepKeepsInv(timing: Timing, s: State, a: Action)
    requires Inv(timing, s)
    ensures Inv(timing, Step(timing, s, a))
  {
    match a
    case Tick(elapsed) =>
      if AllInTime(s.loads, timing, s.now + elapsed) {
        TimeKeepsInv(timing, s, s.now + elapsed);
      }
    case Write(key, enabled, rollout) => WriteKeepsInv(timing, s, key, Flag(enabled, rollout));
    case ResetNode(_) =>
    case DropCache =>
    case Evict =>
    case BeginHit(load, node) => HitKeepsInv(timing, s, load, node);
    case BeginMiss(load, node, publishes) => MissKeepsInv(timing, s, load, node, publishes);
    case ReadThrough(load, node) =>
      MissKeepsInv(timing, s, load, node, true);
      PublishKeepsInv(timing, AfterMiss(s, load, node, true), load);
    case Publish(load) => PublishKeepsInv(timing, s, load);
    case Install(load) => InstallKeepsInv(timing, s, load);
    case Abandon(_) =>
  }

  lemma {:induction false} RunKeepsInv(timing: Timing, flags: Flags, actions: seq<Action>)
    ensures Inv(timing, RunAll(timing, Initial(flags), actions))
  {
    if actions != [] {
      var before := actions[..|actions| - 1];
      RunKeepsInv(timing, flags, before);
      StepKeepsInv(timing, RunAll(timing, Initial(flags), before), actions[|actions| - 1]);
    }
  }

  /**
   * The staleness bound, with any number of nodes, loads, evictions and invalidations that
   * fail or come late: what a fresh node answers from was in the table less than twice the
   * refresh interval ago, plus the time a load may take to publish and to install.
   */
  lemma StaleByTwoIntervals(timing: Timing, flags: Flags, actions: seq<Action>, node: nat)
    ensures var s := RunAll(timing, Initial(flags), actions);
            Fresh(s, node) ==> HeldWithin(s, s.nodes[node].snapshot.flags,
                2 * REFRESH + timing.publish + timing.install)
  {
    var s := RunAll(timing, Initial(flags), actions);
    RunKeepsInv(timing, flags, actions);
    if Fresh(s, node) {
      assert NodeOk(timing, s.history, s.now, s.nodes[node]);
      SnapshotWasHeld(s, s.nodes[node].snapshot);
    }
  }

  lemma SnapshotWasHeld(s: State, p: Snapshot)
    requires SnapshotOk(s.history, s.now, p)
    ensures HeldAt(s.history, p.flags, p.heldAt)
  {
  }

  // --------------------------------------------------- prompt invalidation

  /** Reads publish atomically, and every write is followed by a drop of the shared entry within `drop`. */
  predicate Prompt(s: State, a: Action, drop: nat) {
    && !a.Publish? && (a.BeginMiss? ==> !a.publishes)
    && (a.Tick? && s.owed.Some? ==> s.now + a.elapsed <= s.owed.value + drop)
  }

  predicate PromptRun(timing: Timing, s: State, actions: seq<Action>, drop: nat) {
    actions == [] ||
    (PromptRun(timing, s, actions[..|actions| - 1], drop)
     && Prompt(RunAll(timing, s, actions[..|actions| - 1]), actions[|actions| - 1], drop))
  }

  ghost predicate PromptInv(timing: Timing, s: State, drop: nat) {
    && (s.owed.Some? ==> s.owed.value <= s.now <= s.owed.value + drop)
    && (s.cache.Some? && s.cache.value.snapshot.version + 1 < |s.history| ==>
          s.owed.Some? && s.owed.value <= s.history[s.cache.value.snapshot.version + 1].at)
    && (forall l :: l in s.loads ==>
          !s.loads[l].unpublished && s.loads[l].obtainedAt <= s.loads[l].snapshot.heldAt + drop)
    && (forall n :: n in s.nodes && s.nodes[n].loadedAt.Some? ==>
          s.nodes[n].loadedAt.value <= s.nodes[n].snapshot.heldAt + drop + timing.install)
  }

  lemma PromptTable(timing: Timing, s: State, a: Action, drop: nat)
    requires Inv(timing, s) && PromptInv(timing, s, drop) && Prompt(s, a, drop)
    requires a.Tick? || a.Write? || a.ResetNode? || a.DropCache? || a.Evict?
    ensures PromptInv(timing, Step(timing, s, a), drop)
  {
  }

  lemma PromptLoad(timing: Timing, s: State, a: Action, drop: nat)
    requires Inv(timing, s) && PromptInv(timing, s, drop) && Prompt(s, a, drop)
    requires a.BeginHit? || a.BeginMiss? || a.ReadThrough? || a.Abandon?
    ensures PromptInv(timing, Step(timing, s, a), drop)
  {
  }

  lemma PromptInstall(timing: Timing, s: State, load: nat, drop: nat)
    requires Inv(timing, s) && PromptInv(timing, s, drop)
    ensures PromptInv(timing, AfterInstall(s, load), drop)
  {
    assert load in s.loads ==> LoadOk(timing, s.history, s.now, s.loads[load]);
  }

  lemma PromptStep(timing: Timing, s: State, a: Action, drop: nat)
    requires Inv(timing, s) && PromptInv(timing, s, drop) && Prompt(s, a, drop)
    ensures PromptInv(timing, Step(timing, s, a), drop)
  {
    if a.Install? {
      PromptInstall(timing, s, a.load, drop);
    } else if a.BeginHit? || a.BeginMiss? || a.ReadThrough? || a.Abandon? {
      PromptLoad(timing, s, a, drop);
    } else {
      PromptTable(timing, s, a, drop);
    }
  }

  lemma {:induction false} PromptRunKeepsInv(timing: Timing, flags: Flags, actions: seq<Action>, drop: nat)
    requires PromptRun(timing, Initial(flags), actions, drop)
    ensures PromptInv(timing, RunAll(timing, Initial(flags), actions), drop)
  {
    if actions != [] {
      var before := actions[..|actions| - 1];
      PromptRunKeepsInv(timing, flags, before, drop);
      RunKeepsInv(timing, flags, before);
      PromptStep(timing, RunAll(timing, Initial(flags), before), actions[|actions| - 1], drop);
    }
  }

  /** One interval suffices when reads publish atomically and no drop fails: the bound the constant promises. */
  lemma StaleByOneInterval(timing: Timing, flags: Flags, actions: seq<Action>, node: nat, drop: nat)
    requires PromptRun(timing, Initial(flags), actions, drop)
    ensures var s := RunAll(timing, Initial(flags), actions);
            Fresh(s, node) ==> HeldWithin(s, s.nodes[node].snapshot.flags, REFRESH + drop + timing.install)
  {
    var s := RunAll(timing, Initial(flags), actions);
    RunKeepsInv(timing, flags, actions);
    PromptRunKeepsInv(timing, flags, actions, drop);
    if Fresh(s, node) {
      assert NodeOk(timing, s.history, s.now, s.nodes[node]);
      SnapshotWasHeld(s, s.nodes[node].snapshot);
    }
  }

  ghost predicate Reaches(timing: Timing, s: State, t: State) {
    exists actions :: RunAll(timing, s, actions) == t
  }

  lemma ReachesNext(timing: Timing, s: State, t: State, a: Action)
    requires Reaches(timing, s, t)
    ensures Reaches(timing, s, Step(timing, t, a))
  {
    var actions :| RunAll(timing, s, actions) == t;
    assert (actions + [a])[..|actions|] == actions;
    assert RunAll(timing, s, actions + [a]) == Step(timing, t, a);
  }

  /**
   * Without that, the 30 seconds the constant is documented to bound staleness by are not a
   * bound. One node publishes, a write follows whose drop fails, a second node loads the old
   * entry just before it expires: with no delay anywhere else, it is still fresh, and answers
   * from content the table lost 2 * REFRESH - 3 microseconds ago.
   */
  lemma OneIntervalIsNoBound()
    ensures exists s ::
              && Reaches(Timing(0, 0), Initial(map[]), s) && Fresh(s, 1)
              && !HeldWithin(s, s.nodes[1].snapshot.flags, 2 * REFRESH - 3)
  {
    var timing := Timing(0, 0);
    var s0 := Initial(map[]);
    assert RunAll(timing, s0, []) == s0;
    ReachesNext(timing, s0, s0, ReadThrough(0, 0));
    var s1 := Step(timing, s0, ReadThrough(0, 0));
    ReachesNext(timing, s0, s1, Install(0));
    var s2 := Step(timing, s1, Install(0));
    assert s2.loads == map[] && s2.cache == Some(Entry(Snapshot(map[], 0, 0), REFRESH));
    ReachesNext(timing, s0, s2, Tick(1));
    var s3 := Step(timing, s2, Tick(1));
    ReachesNext(timing, s0, s3, Write("calls", true, 100));
    var s4 := Step(timing, s3, Write("calls", true, 100));
    ReachesNext(timing, s0, s4, Tick(REFRESH - 2));
    var s5 := Step(timing, s4, Tick(REFRESH - 2));
    assert s5.now == REFRESH - 1 && |s5.history| == 2 && s5.history[1].at == 1;
    OldEntryServed(timing, s0, s5);
  }

  lemma OldEntryServed(timing: Timing, s0: State, s5: State)
    requires timing == Timing(0, 0) && Reaches(timing, s0, s5)
    requires s5.now == REFRESH - 1 && s5.loads == map[] && s5.cache == Some(Entry(Snapshot(map[], 0, 0), REFRESH))
    requires s5.history == [Version(0, map[]), Version(1, map["calls" := Flag(true, 100)])]
    ensures exists s ::
              Reaches(timing, s0, s) && Fresh(s, 1) && !HeldWithin(s, s.nodes[1].snapshot.flags, 2 * REFRESH - 3)
  {
    ReachesNext(timing, s0, s5, BeginHit(1, 1));
    var s6 := Step(timing, s5, BeginHit(1, 1));
    ReachesNext(timing, s0, s6, Install(1));
    var s7 := Step(timing, s6, Install(1));
    assert s7.loads == map[];
    ReachesNext(timing, s0, s7, Tick(REFRESH - 1));
    var s8 := Step(timing, s7, Tick(REFRESH - 1));
    assert s8.now == 2 * REFRESH - 2 && s8.history == s5.history && s8.nodes[1].snapshot.flags == map[];
    assert "calls" in s8.history[1].flags;
    assert forall t: nat :: HeldAt(s8.history, map[], t) ==> t <= 1;
  }

  // --------------------------------------------------- the exact condition

  /** Whatever happens from here on, until the node is reset or reloaded its answers are less than one interval old. */
  ghost predicate StaysWithin(timing: Timing, s: State, node: nat)
    requires node in s.nodes
  {
    forall actions :: UpToDate(RunAll(timing, s, actions), node, s.nodes[node])
  }

  /** A node that still serves this snapshot, and is fresh, answers from content held in the last interval. */
  ghost predicate UpToDate(t: State, node: nat, served: Node) {
    node in t.nodes && t.nodes[node] == served && Fresh(t, node) ==> HeldWithin(t, served.snapshot.flags, REFRESH)
  }

  lemma HistoryGrows(timing: Timing, s: State, a: Action)
    ensures var t := Step(timing, s, a);
            && s.now <= t.now
            && (t.history == s.history
                || (t.now == s.now && |t.history| == |s.history| + 1
                    && t.history[..|s.history|] == s.history && t.history[|s.history|].at == s.now))
  {
  }

  lemma HeldInLonger(history: seq<Version>, longer: seq<Version>, now: nat, flags: Flags, at: nat)
    requires HistoryOk(history, now) && HeldAt(history, flags, at) && at <= now
    requires |longer| == |history| + 1 && longer[..|history|] == history && longer[|history|].at == now
    ensures HistoryOk(longer, now) && HeldAt(longer, flags, at)
  {
    assert forall i :: 0 <= i < |history| ==> longer[i] == longer[..|history|][i];
    var i :| 0 <= i < |history| && history[i].flags == flags && history[i].at <= at
             && (i + 1 < |history| ==> at <= history[i + 1].at);
    assert longer[i] == history[i];
  }

  lemma HeldStaysHeld(timing: Timing, s: State, a: Action, flags: Flags, at: nat)
    requires HistoryOk(s.history, s.now) && HeldAt(s.history, flags, at) && at <= s.now
    ensures var t := Step(timing, s, a);
            HistoryOk(t.history, t.now) && HeldAt(t.history, flags, at) && s.now <= t.now
  {
    HistoryGrows(timing, s, a);
    if Step(timing, s, a).history != s.history {
      HeldInLonger(s.history, Step(timing, s, a).history, s.now, flags, at);
    }
  }

  lemma {:induction false} HeldOverRun(timing: Timing, s: State, actions: seq<Action>, flags: Flags, at: nat)
    requires HistoryOk(s.history, s.now) && HeldAt(s.history, flags, at) && at <= s.now
    ensures var t := RunAll(timing, s, actions);
            HistoryOk(t.history, t.now) && HeldAt(t.history, flags, at) && s.now <= t.now
  {
    if actions != [] {
      var before := actions[..|actions| - 1];
      HeldOverRun(timing, s, before, flags, at);
      HeldStaysHeld(timing, RunAll(timing, s, before), actions[|actions| - 1], flags, at);
    }
  }

  /** With every load abandoned, nothing holds time back. */
  lemma {:induction false} Idles(timing: Timing, s: State, t: State)
    requires Reaches(timing, s, t)
    ensures Reaches(timing, s, t.(loads := map[]))
    decreases |t.loads|
  {
    if load :| load in t.loads {
      ReachesNext(timing, s, t, Abandon(load));
      assert (t.loads - {load}).Keys == t.loads.Keys - {load};
      Idles(timing, s, Step(timing, t, Abandon(load)));
    } else {
      assert t.loads == map[];
    }
  }

  lemma Ages(timing: Timing, s: State, age: nat)
    ensures Reaches(timing, s, s.(loads := map[], now := s.now + age))
  {
    assert RunAll(timing, s, []) == s;
    Idles(timing, s, s);
    ReachesNext(timing, s, s.(loads := map[]), Tick(age));
  }

  /** With nothing written since, content not in the table now was not there in the interval now beginning. */
  lemma SupersededRunsOut(s: State, t: State, flags: Flags)
    requires HistoryOk(s.history, s.now) && !HeldAt(s.history, flags, s.now)
    requires t.history == s.history && t.now == s.now + REFRESH - 1
    ensures !HeldWithin(t, flags, REFRESH)
  {
    forall at: nat | HeldAt(t.history, flags, at) ensures at < s.now {
      var i :| 0 <= i < |s.history| && s.history[i].flags == flags && s.history[i].at <= at
               && (i + 1 < |s.history| ==> at <= s.history[i + 1].at);
    }
  }

  /**
   * The bound the constant promises, exactly. However long ago a load read the table or hit the
   * cache, the node it installs on keeps within one interval for as long as it serves what was
   * installed, if and only if the table holds that content at the moment of the install: that it
   * has not been superseded on the way is what the code would have to check.
   */
  lemma InstallWithinOneInterval(timing: Timing, s: State, load: nat)
    requires HistoryOk(s.history, s.now) && load in s.loads && !s.loads[load].unpublished
    ensures var t := Step(timing, s, Install(load));
            && Fresh(t, s.loads[load].node)
            && (StaysWithin(timing, t, s.loads[load].node) <==> HeldAt(s.history, s.loads[load].snapshot.flags, s.now))
  {
    var t, node, flags := Step(timing, s, Install(load)), s.loads[load].node, s.loads[load].snapshot.flags;
    var served := t.nodes[node];
    if HeldAt(s.history, flags, s.now) {
      forall actions ensures UpToDate(RunAll(timing, t, actions), node, served) {
        HeldOverRun(timing, t, actions, flags, s.now);
      }
    } else {
      Ages(timing, t, REFRESH - 1);
      var actions :| RunAll(timing, t, actions) == t.(loads := map[], now := t.now + REFRESH - 1);
      SupersededRunsOut(t, RunAll(timing, t, actions), flags);
      assert !UpToDate(RunAll(timing, t, actions), node, served);
    }
  }

  /** A load that is instantaneous and hits the cache: the entry must not have been superseded. */
  lemma HitWithinOneInterval(timing: Timing, s: State, load: nat, node: nat)
    requires HistoryOk(s.history, s.now) && load !in s.loads && Serves(s, false)
    ensures var t := Step(timing, Step(timing, s, BeginHit(load, node)), Install(load));
            && Fresh(t, node)
            && (StaysWithin(timing, t, node) <==> HeldAt(s.history, s.cache.value.snapshot.flags, s.now))
  {
    InstallWithinOneInterval(timing, Step(timing, s, BeginHit(load, node)), load);
  }

  /** A load that is instantaneous and reads the table always keeps within one interval. */
  lemma MissWithinOneInterval(timing: Timing, s: State, load: nat, node: nat)
    requires HistoryOk(s.history, s.now) && load !in s.loads
    ensures var t := Step(timing, Step(timing, s, ReadThrough(load, node)), Install(load));
            Fresh(t, node) && StaysWithin(timing, t, node)
  {
    InstallWithinOneInterval(timing, Step(timing, s, ReadThrough(load, node)), load);
    assert HeldAt(s.history, Latest(s).flags, s.now);
  }

  /** A node installs what it read from the table although a write, its drop succeeding, has superseded it meanwhile. */
  lemma ReadSupersededInFlight()
    ensures exists s ::
              Reaches(Timing(0, 10), Initial(map[]), s) && Fresh(s, 0) && !StaysWithin(Timing(0, 10), s, 0)
  {
    var timing, s0 := Timing(0, 10), Initial(map[]);
    assert RunAll(timing, s0, []) == s0;
    ReachesNext(timing, s0, s0, ReadThrough(0, 0));
    var s1 := Step(timing, s0, ReadThrough(0, 0));
    assert s1.loads == map[0 := Load(0, Snapshot(map[], 0, 0), 0, false)];
    ReachesNext(timing, s0, s1, Tick(1));
    var s2 := Step(timing, s1, Tick(1));
    SupersededInstalled(s0, s2);
  }

  lemma SupersededInstalled(s0: State, s2: State)
    requires Reaches(Timing(0, 10), s0, s2) && s2.now == 1 && s2.history == [Version(0, map[])]
    requires s2.loads == map[0 := Load(0, Snapshot(map[], 0, 0), 0, false)]
    ensures exists s :: Reaches(Timing(0, 10), s0, s) && Fresh(s, 0) && !StaysWithin(Timing(0, 10), s, 0)
  {
    var timing := Timing(0, 10);
    ReachesNext(timing, s0, s2, Write("calls", true, 100));
    var s3 := Step(timing, s2, Write("calls", true, 100));
    ReachesNext(timing, s0, s3, DropCache);
    var s4 := Step(timing, s3, DropCache);
    ReachesNext(timing, s0, s4, Tick(5));
    var s5 := Step(timing, s4, Tick(5));
    ReachesNext(timing, s0, s5, Install(0));
    assert s5.history == [Version(0, map[]), Version(1, map["calls" := Flag(true, 100)])] && s5.now == 6;
    assert "calls" in s5.history[1].flags && !HeldAt(s5.history, map[], 6);
    InstallWithinOneInterval(timing, s5, 0);
  }

  // ------------------------------------------------------------- the service

  predicate Serves(s: State, cacheFails: bool) {
    !cacheFails && s.cache.Some? && s.now < s.cache.value.expires
  }

  function Source(s: State, cacheFails: bool): Snapshot
    requires s.history != []
  {
    if Serves(s, cacheFails) then s.cache.value.snapshot.(heldAt := HeldUntil(s, s.cache.value.snapshot.version))
    else Latest(s)
  }

  /** A load that nothing interrupts. */
  function Loaded(s: State, node: nat, cacheFails: bool, publishFails: bool): State
    requires s.history != []
  {
    s.(nodes := s.nodes[node := Node(Source(s, cacheFails), Some(s.now))],
       cache := if Serves(s, cacheFails) || publishFails then s.cache else Some(Entry(Latest(s), s.now + REFRESH)))
  }

  lemma RemoveAdded(loads: map<nat, Load>, load: nat, l: Load)
    requires load !in loads
    ensures loads[load := l] - {load} == loads
  {
  }

  function Begin(s: State, node: nat, load: nat, cacheFails: bool, publishFails: bool): Action {
    if Serves(s, cacheFails) then BeginHit(load, node)
    else if publishFails then BeginMiss(load, node, false)
    else ReadThrough(load, node)
  }

  lemma BeginsLoad(timing: Timing, s: State, node: nat, load: nat, cacheFails: bool, publishFails: bool)
    requires s.history != [] && load !in s.loads
    ensures Step(timing, s, Begin(s, node, load, cacheFails, publishFails)) ==
            s.(loads := s.loads[load := Load(node, Source(s, cacheFails), s.now, false)],
               cache := if Serves(s, cacheFails) || publishFails then s.cache
                        else Some(Entry(Latest(s), s.now + REFRESH)))
  {
    if !Serves(s, cacheFails) && !publishFails {
      var l := Load(node, Latest(s), s.now, true);
      assert s.loads[load := l][load := l.(unpublished := false)] == s.loads[load := l.(unpublished := false)];
    }
  }

  /** An uninterrupted load is a run of the machine, so the node it leaves fresh is within the bound. */
  lemma LoadedIsARun(timing: Timing, s: State, node: nat, load: nat, cacheFails: bool, publishFails: bool)
    requires s.history != [] && load !in s.loads
    ensures var t := Step(timing, s, Begin(s, node, load, cacheFails, publishFails));
            Step(timing, t, Install(load)) == Loaded(s, node, cacheFails, publishFails)
    ensures Fresh(Loaded(s, node, cacheFails, publishFails), node)
  {
    BeginsLoad(timing, s, node, load, cacheFails, publishFails);
    RemoveAdded(s.loads, load, Load(node, Source(s, cacheFails), s.now, false));
  }

  /** The table, the shared cache and every node's snapshot. */
  /** A node that has just set a flag, and whose drop succeeded, answers the next question from what it wrote. */
  lemma SetIsSeen(timing: Timing, s: State, node: nat, key: string, flag: Flag, cacheFails: bool, publishFails: bool)
    requires s.history != [] && node in s.nodes && 0 <= flag.rollout <= 100
    ensures var written := Step(timing, s, Write(key, flag.enabled, flag.rollout));
            var t := Step(timing, Step(timing, written, ResetNode(node)), DropCache);
            var u := Loaded(t, node, cacheFails, publishFails);
            && !Fresh(t, node) && Fresh(u, node)
            && u.nodes[node].snapshot.flags == s.history[|s.history| - 1].flags[key := flag]
  {
  }

  class Cluster {
    const timing: Timing
    var now: nat
    var history: seq<Version>
    var owed: Option<nat>
    var cache: Option<Entry>
    var nodes: map<nat, Node>
    var loads: map<nat, Load>

    ghost function Model(): State
      reads this
    {
      State(now, history, owed, cache, nodes, loads)
    }

    constructor (timing: Timing, flags: Flags)
      ensures this.timing == timing && Model() == Initial(flags)
    {
      this.timing := timing;
      var s := Initial(flags);
      now, history, owed, cache, nodes, loads := s.now, s.history, s.owed, s.cache, s.nodes, s.loads;
    }

    /** A drop that fails is ignored. */
    method Set(node: nat, key: string, enabled: bool, rollout: int, dbFails: bool, dropFails: bool) returns (ok: bool)
      requires history != []
      modifies this
      ensures ok <==> 0 <= rollout <= 100 && !dbFails
      ensures !ok ==> Model() == old(Model())
      ensures ok ==>
                var written := Step(timing, old(Model()), Write(key, enabled, rollout));
                var reset := Step(timing, written, ResetNode(node));
                Model() == if dropFails then reset else Step(timing, reset, DropCache)
      ensures ok ==>
                && |history| == |old(history)| + 1 && history[..|old(history)|] == old(history)
                && history[|history| - 1] == Version(now, old(history)[|old(history)| - 1].flags[
                     key := Flag(enabled, rollout)])
                && !Fresh(Model(), node) && (!dropFails ==> cache.None?)
    {
      if rollout < 0 || rollout > 100 || dbFails {
        return false;
      }
      history := history + [Version(now, history[|history| - 1].flags[key := Flag(enabled, rollout)])];
      owed := if owed.None? then Some(now) else owed;
      if node in nodes {
        nodes := nodes[node := nodes[node].(loadedAt := None)];
      }
      if !dropFails {
        cache, owed := None, None;
      }
      return true;
    }

    /** The shared entry while it lives; otherwise the table, which then becomes the shared entry. */
    method Read(cacheFails: bool, dbFails: bool, publishFails: bool) returns (snapshot: Option<Snapshot>)
      requires history != []
      modifies this`cache
      ensures var s := old(Model());
              && (snapshot.None? <==> !Serves(s, cacheFails) && dbFails)
              && (snapshot.Some? ==> snapshot.value == Source(s, cacheFails))
              && cache == if Serves(s, cacheFails) || dbFails || publishFails then s.cache
                          else Some(Entry(Latest(s), now + REFRESH))
    {
      if !cacheFails && cache.Some? && now < cache.value.expires {
        snapshot := Some(cache.value.snapshot);
        var version := snapshot.value.version;
        var heldUntil := if version + 1 < |history| then history[version + 1].at else now;
        return Some(snapshot.value.(heldAt := heldUntil));
      }
      if dbFails {
        return None;
      }
      var read := Snapshot(history[|history| - 1].flags, |history| - 1, now);
      if !publishFails {
        cache := Some(Entry(read, now + REFRESH));
      }
      return Some(read);
    }

    /** Use the snapshot while it is fresh; otherwise read again, and on failure keep serving the old one. */
    method EnsureFresh(node: nat, cacheFails: bool, dbFails: bool, publishFails: bool) returns (ok: bool)
      requires history != []
      modifies this`cache, this`nodes
      ensures var s := old(Model());
              && (ok <==> Fresh(s, node) || Serves(s, cacheFails) || !dbFails)
              && Model() == if Fresh(s, node) || !ok then s else Loaded(s, node, cacheFails, publishFails)
    {
      if node in nodes && nodes[node].loadedAt.Some? && now < nodes[node].loadedAt.value + REFRESH {
        return true;
      }
      var snapshot := Read(cacheFails, dbFails, publishFails);
      if snapshot.None? {
        return false;
      }
      nodes := nodes[node := Node(snapshot.value, Some(now))];
      return true;
    }

    method Enabled(node: nat, key: string, hash: nat, cacheFails: bool, dbFails: bool, publishFails: bool)
        returns (on: bool)
      requires history != []
      modifies this`cache, this`nodes
      ensures on <==> node in nodes && Answer(nodes[node].snapshot.flags, key, hash)
      ensures on ==> key in nodes[node].snapshot.flags && nodes[node].snapshot.flags[key].enabled
      ensures var s := old(Model());
              Model() == if Fresh(s, node) || (!Serves(s, cacheFails) && dbFails) then s
                         else Loaded(s, node, cacheFails, publishFails)
    {
      var _ := EnsureFresh(node, cacheFails, dbFails, publishFails);
      if node !in nodes || key !in nodes[node].snapshot.flags {
        return false;
      }
      var flag := nodes[node].snapshot.flags[key];
      if !flag.enabled {
        return false;
      }
      if flag.rollout >= 100 {
        return true;
      }
      if flag.rollout <= 0 {
        return false;
      }
      return hash % 100 < flag.rollout;
    }
  }
}
