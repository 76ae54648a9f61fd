/** The migration runner, over an abstract schema: `exec` is what a SQL script does to it. */
module Migrator {
  import opened Common
  import opened Ordering

  datatype Migration = Migration(version: int, name: string, up: string, down: string, checksum: string)

  /** A row of schema_migrations, keyed by version. */
  datatype Record = Record(name: string, checksum: string)

  datatype Database<S> = Database(schema: S, ledger: map<int, Record>)

  predicate InOrder(ms: seq<Migration>) {
    forall i, j :: 0 <= i < j < |ms| ==> ms[i].version < ms[j].version
  }

  // ------------------------------------------------------------------ files

  /** The files grouped by version, refused if one has no up script, otherwise in version order. */
  function Load(byVersion: map<int, Migration>): (r: Option<seq<Migration>>)
    requires forall v :: v in byVersion ==> byVersion[v].version == v
    ensures r.None? <==> exists v :: v in byVersion && Blank(byVersion[v].up)
    ensures r.Some? ==> InOrder(r.value) && |r.value| == |byVersion|
    ensures r.Some? ==> forall i :: 0 <= i < |r.value| ==>
              r.value[i].version in byVersion && r.value[i] == byVersion[r.value[i].version]
  {
    if exists v :: v in byVersion && Blank(byVersion[v].up) then None
    else
      var order := Sorted(byVersion.Keys);
      SortedLists(byVersion.Keys);
      assert forall i :: 0 <= i < |order| ==> order[i] in order;
      Some(Listed(byVersion, order))
  }

  function Listed(byVersion: map<int, Migration>, order: seq<int>): (ms: seq<Migration>)
    requires forall v :: v in byVersion ==> byVersion[v].version == v
    requires Ascending(order) && forall i :: 0 <= i < |order| ==> order[i] in byVersion
    ensures InOrder(ms) && |ms| == |order|
    ensures forall i :: 0 <= i < |ms| ==> ms[i].version in byVersion && ms[i] == byVersion[ms[i].version]
  {
    var ms := seq(|order|, i requires 0 <= i < |order| => byVersion[order[i]]);
    assert forall i :: 0 <= i < |order| ==> order[i] in byVersion && ms[i].version == order[i];
    ms
  }

  // --------------------------------------------------------------- applying

  function Apply<S>(exec: (string, S) -> S, db: Database<S>, m: Migration): Database<S> {
    Database(exec(m.up, db.schema), db.ledger[m.version := Record(m.name, m.checksum)])
  }

  /** The first n migrations applied in turn. */
  function ApplyFirst<S>(exec: (string, S) -> S, db: Database<S>, ms: seq<Migration>, n: nat): Database<S>
    requires n <= |ms|
  {
    if n == 0 then db else Apply(exec, ApplyFirst(exec, db, ms, n - 1), ms[n - 1])
  }

  function Pending(ms: seq<Migration>, applied: set<int>): seq<Migration> {
    if ms == [] then []
    else if ms[0].version in applied then Pending(ms[1..], applied)
    else [ms[0]] + Pending(ms[1..], applied)
  }

  predicate ChecksumsMatch(ms: seq<Migration>, ledger: map<int, Record>) {
    forall m :: m in ms && m.version in ledger ==> ledger[m.version].checksum == m.checksum
  }

  /** The result of one attempt, and the migrations whose scripts it committed. */
  datatype Attempt<S> = Attempt(db: Database<S>, committed: seq<Migration>, ok: bool)

  /** One Up, in which the transactions of the versions in `fails` roll back. */
  function UpAttempt<S>(exec: (string, S) -> S, db: Database<S>, ms: seq<Migration>, fails: set<int>): Attempt<S> {
    if !ChecksumsMatch(ms, db.ledger) then Attempt(db, [], false)
    else
      var pending := Pending(ms, db.ledger.Keys);
      CommitFirst(exec, db, pending, Reached(pending, fails))
  }

  function CommitFirst<S>(exec: (string, S) -> S, db: Database<S>, pending: seq<Migration>, n: nat): Attempt<S>
    requires n <= |pending|
  {
    Attempt(ApplyFirst(exec, db, pending, n), pending[..n], n == |pending|)
  }

  /** How many pending migrations commit before the first that fails. */
  function Reached(ms: seq<Migration>, fails: set<int>): (n: nat)
    ensures n <= |ms|
  {
    if ms == [] || ms[0].version in fails then 0 else 1 + Reached(ms[1..], fails)
  }

  lemma {:induction false} ReachedFailure(ms: seq<Migration>, fails: set<int>)
    ensures var n := Reached(ms, fails);
            && (forall i :: 0 <= i < n ==> ms[i].version !in fails)
            && (n < |ms| ==> ms[n].version in fails)
  {
    if ms != [] && ms[0].version !in fails {
      ReachedFailure(ms[1..], fails);
      assert forall i :: 0 < i < Reached(ms, fails) ==> ms[i] == ms[1..][i - 1];
    }
  }

  lemma {:induction false} PendingMembers(ms: seq<Migration>, applied: set<int>, m: Migration)
    ensures m in Pending(ms, applied) <==> m in ms && m.version !in applied
  {
    if ms != [] {
      PendingMembers(ms[1..], applied, m);
    }
  }

  lemma {:induction false} PendingInOrder(ms: seq<Migration>, applied: set<int>)
    requires InOrder(ms)
    ensures InOrder(Pending(ms, applied))
  {
    if ms != [] {
      var rest := Pending(ms[1..], applied);
      PendingInOrder(ms[1..], applied);
      forall i | 0 <= i < |rest| ensures ms[0].version < rest[i].version {
        PendingMembers(ms[1..], applied, rest[i]);
        var j :| 0 <= j < |ms[1..]| && ms[1..][j] == rest[i];
        assert ms[j + 1] == rest[i];
      }
    }
  }

  lemma {:induction false} PendingAll(ms: seq<Migration>, applied: set<int>)
    requires forall m :: m in ms ==> m.version !in applied
    ensures Pending(ms, applied) == ms
  {
    if ms != [] {
      assert ms[0] in ms;
      PendingAll(ms[1..], applied);
      assert [ms[0]] + ms[1..] == ms;
    }
  }

  lemma {:induction false} NonePending(ms: seq<Migration>, applied: set<int>)
    requires forall m :: m in ms ==> m.version in applied
    ensures Pending(ms, applied) == []
  {
    if ms != [] {
      assert ms[0] in ms;
      NonePending(ms[1..], applied);
    }
  }

  lemma {:induction false} PendingIgnores(ms: seq<Migration>, applied: set<int>, version: int)
    requires forall m :: m in ms ==> m.version != version
    ensures Pending(ms, applied + {version}) == Pending(ms, applied)
  {
    if ms != [] {
      assert ms[0] in ms;
      PendingIgnores(ms[1..], applied, version);
    }
  }

  /** Once the first pending migration is applied, the others are pending. */
  lemma {:induction false} PendingNext(ms: seq<Migration>, applied: set<int>)
    requires InOrder(ms) && Pending(ms, applied) != []
    ensures var p := Pending(ms, applied); Pending(ms, applied + {p[0].version}) == p[1..]
  {
    var p := Pending(ms, applied);
    if ms[0].version in applied {
      PendingNext(ms[1..], applied);
    } else {
      assert p[0] == ms[0] && p[1..] == Pending(ms[1..], applied);
      assert forall m :: m in ms[1..] ==> ms[0].version < m.version;
      PendingIgnores(ms[1..], applied, ms[0].version);
    }
  }

  lemma {:induction false} PendingAfter<S>(exec: (string, S) -> S, db: Database<S>, ms: seq<Migration>, n: nat)
    requires InOrder(ms) && n <= |Pending(ms, db.ledger.Keys)|
    ensures var p := Pending(ms, db.ledger.Keys); Pending(ms, ApplyFirst(exec, db, p, n).ledger.Keys) == p[n..]
  {
    if n > 0 {
      var p := Pending(ms, db.ledger.Keys);
      var before := ApplyFirst(exec, db, p, n - 1);
      PendingAfter(exec, db, ms, n - 1);
      PendingNext(ms, before.ledger.Keys);
      assert p[n - 1..][0] == p[n - 1] && p[n - 1..][1..] == p[n..];
      assert Apply(exec, before, p[n - 1]).ledger.Keys == before.ledger.Keys + {p[n - 1].version};
    }
  }

  lemma {:induction false} ChecksumsAfter<S>(exec: (string, S) -> S, db: Database<S>, ms: seq<Migration>, n: nat)
    requires InOrder(ms) && ChecksumsMatch(ms, db.ledger) && n <= |Pending(ms, db.ledger.Keys)|
    ensures ChecksumsMatch(ms, ApplyFirst(exec, db, Pending(ms, db.ledger.Keys), n).ledger)
  {
    if n > 0 {
      var p := Pending(ms, db.ledger.Keys);
      ChecksumsAfter(exec, db, ms, n - 1);
      PendingMembers(ms, db.ledger.Keys, p[n - 1]);
      forall m | m in ms && m.version == p[n - 1].version ensures m == p[n - 1] {
        SameVersion(ms, m, p[n - 1]);
      }
    }
  }

  lemma SameVersion(ms: seq<Migration>, a: Migration, b: Migration)
    requires InOrder(ms) && a in ms && b in ms && a.version == b.version
    ensures a == b
  {
    var i :| 0 <= i < |ms| && ms[i] == a;
    var j :| 0 <= j < |ms| && ms[j] == b;
    assert !(i < j) && !(j < i);
  }

  lemma {:induction false} ApplyFirstTwice<S>(exec: (string, S) -> S, db: Database<S>, ms: seq<Migration>, n: nat,
      k: nat)
    requires n + k <= |ms|
    ensures ApplyFirst(exec, ApplyFirst(exec, db, ms, n), ms[n..], k) == ApplyFirst(exec, db, ms, n + k)
  {
    if k > 0 {
      ApplyFirstTwice(exec, db, ms, n, k - 1);
    }
  }

  lemma {:induction false} RecordsOfFirst<S>(exec: (string, S) -> S, db: Database<S>, ms: seq<Migration>, n: nat,
      v: int)
    requires InOrder(ms) && n <= |ms| && (forall m :: m in ms ==> m.version !in db.ledger)
    ensures var after := ApplyFirst(exec, db, ms, n).ledger;
            && (v in db.ledger ==> v in after && after[v] == db.ledger[v])
            && (v in after && v !in db.ledger ==>
                  exists i :: 0 <= i < n && ms[i].version == v && after[v] == Record(ms[i].name, ms[i].checksum))
            && (forall i :: 0 <= i < n ==> ms[i].version in after)
  {
    if n > 0 {
      RecordsOfFirst(exec, db, ms, n - 1, v);
      assert ms[n - 1] in ms;
      if v == ms[n - 1].version {
        assert ms[n - 1].version == v;
      }
    }
  }

  /**
   * What one Up writes, whatever it finds and wherever it fails. It touches nothing if a file
   * was edited after being applied; it keeps every record there was; each it adds is a file's
   * own name and checksum, and that file's script did not fail; and it succeeds only if every
   * file is then recorded.
   */
  lemma UpRecords<S>(exec: (string, S) -> S, db: Database<S>, ms: seq<Migration>, fails: set<int>, v: int)
    requires InOrder(ms)
    ensures var up := UpAttempt(exec, db, ms, fails);
            && (!ChecksumsMatch(ms, db.ledger) ==> up == Attempt(db, [], false))
            && (v in db.ledger ==> v in up.db.ledger && up.db.ledger[v] == db.ledger[v])
            && (v in up.db.ledger && v !in db.ledger ==>
                  v !in fails
                  && exists m :: m in ms && m.version == v && up.db.ledger[v] == Record(m.name, m.checksum))
            && (up.ok ==> forall m :: m in ms ==> m.version in up.db.ledger)
  {
    var p := Pending(ms, db.ledger.Keys);
    PendingInOrder(ms, db.ledger.Keys);
    forall m ensures m in p <==> m in ms && m.version !in db.ledger {
      PendingMembers(ms, db.ledger.Keys, m);
    }
    ReachedFailure(p, fails);
    RecordsOfFirst(exec, db, p, Reached(p, fails), v);
    forall m | m in ms && Reached(p, fails) == |p|
      ensures m.version in ApplyFirst(exec, db, p, |p|).ledger
    {
      if m.version in db.ledger {
        LedgerGrows(exec, db, p, |p|);
      } else {
        var i :| 0 <= i < |p| && p[i] == m;
        AppliedStaysApplied(exec, db, p, i, |p|);
      }
    }
    var after := ApplyFirst(exec, db, p, Reached(p, fails)).ledger;
    if ChecksumsMatch(ms, db.ledger) && v in after && v !in db.ledger {
      var i :| 0 <= i < Reached(p, fails) && p[i].version == v && after[v] == Record(p[i].name, p[i].checksum);
      assert p[i] in p;
    }
  }

  // ---------------------------------------------------------------- retries

  /** A series of attempts, each failing where it fails; `committed` accumulates. */
  function Attempts<S>(exec: (string, S) -> S, db: Database<S>, ms: seq<Migration>, fails: seq<set<int>>): Attempt<S> {
    if fails == [] then Attempt(db, [], false)
    else
      var before := Attempts(exec, db, ms, fails[..|fails| - 1]);
      var last := UpAttempt(exec, before.db, ms, fails[|fails| - 1]);
      Attempt(last.db, before.committed + last.committed, last.ok)
  }

  /** What is left of an uninterrupted run whose first n migrations are done, up to the next k. */
  function Resumed<S>(exec: (string, S) -> S, db: Database<S>, pending: seq<Migration>, n: nat, k: nat): Attempt<S>
    requires n + k <= |pending|
  {
    Attempt(ApplyFirst(exec, db, pending, n + k), pending[n..n + k], n + k == |pending|)
  }

  lemma CommitsResume<S>(exec: (string, S) -> S, db: Database<S>, pending: seq<Migration>, n: nat, k: nat)
    requires n + k <= |pending|
    ensures CommitFirst(exec, ApplyFirst(exec, db, pending, n), pending[n..], k) == Resumed(exec, db, pending, n, k)
  {
    ApplyFirstTwice(exec, db, pending, n, k);
    assert pending[n..][..k] == pending[n..n + k];
  }

  /** An attempt that finds the first n of the pending migrations applied goes on with the next. */
  lemma AttemptResumes<S>(exec: (string, S) -> S, db: Database<S>, ms: seq<Migration>, n: nat, fails: set<int>)
    requires InOrder(ms) && ChecksumsMatch(ms, db.ledger) && n <= |Pending(ms, db.ledger.Keys)|
    ensures var pending := Pending(ms, db.ledger.Keys);
            UpAttempt(exec, ApplyFirst(exec, db, pending, n), ms, fails)
              == Resumed(exec, db, pending, n, Reached(pending[n..], fails))
  {
    var pending := Pending(ms, db.ledger.Keys);
    ChecksumsAfter(exec, db, ms, n);
    PendingAfter(exec, db, ms, n);
    CommitsResume(exec, db, pending, n, Reached(pending[n..], fails));
  }

  lemma UpFinishes<S>(exec: (string, S) -> S, db: Database<S>, ms: seq<Migration>, n: nat)
    requires InOrder(ms) && ChecksumsMatch(ms, db.ledger) && n <= |Pending(ms, db.ledger.Keys)|
    ensures var pending := Pending(ms, db.ledger.Keys);
            UpAttempt(exec, ApplyFirst(exec, db, pending, n), ms, {}).db == ApplyFirst(exec, db, pending, |pending|)
  {
    var pending := Pending(ms, db.ledger.Keys);
    ChecksumsAfter(exec, db, ms, n);
    PendingAfter(exec, db, ms, n);
    UninterruptedUp(exec, ApplyFirst(exec, db, pending, n), ms);
    CommitsResume(exec, db, pending, n, |pending| - n);
  }

  /** The first n of the pending migrations are committed, and nothing else. */
  ghost predicate Progress<S(!new)>(exec: (string, S) -> S, db: Database<S>, pending: seq<Migration>, run: Attempt<S>) {
    var n := |run.committed|;
    && n <= |pending| && run.committed == pending[..n]
    && run.db == ApplyFirst(exec, db, pending, n)
    && (run.ok ==> n == |pending|)
  }

  lemma {:induction false} RetriesProgress<S(!new)>(exec: (string, S) -> S, db: Database<S>, ms: seq<Migration>,
      fails: seq<set<int>>)
    requires InOrder(ms) && ChecksumsMatch(ms, db.ledger)
    ensures Progress(exec, db, Pending(ms, db.ledger.Keys), Attempts(exec, db, ms, fails))
  {
    if fails != [] {
      var pending, earlier, last := Pending(ms, db.ledger.Keys), fails[..|fails| - 1], fails[|fails| - 1];
      RetriesProgress(exec, db, ms, earlier);
      var before := Attempts(exec, db, ms, earlier);
      AttemptResumes(exec, db, ms, |before.committed|, last);
      ResumedProgress(exec, db, pending, before, Reached(pending[|before.committed|..], last));
    }
  }

  lemma ResumedProgress<S(!new)>(exec: (string, S) -> S, db: Database<S>, pending: seq<Migration>, before: Attempt<S>,
      k: nat)
    requires Progress(exec, db, pending, before) && |before.committed| + k <= |pending|
    ensures var last := Resumed(exec, db, pending, |before.committed|, k);
            Progress(exec, db, pending, Attempt(last.db, before.committed + last.committed, last.ok))
  {
    var n := |before.committed|;
    assert pending[..n] + pending[n..n + k] == pending[..n + k];
  }

  lemma {:induction false} ReachesAll(ms: seq<Migration>)
    ensures Reached(ms, {}) == |ms|
  {
    if ms != [] {
      ReachesAll(ms[1..]);
    }
  }

  lemma UninterruptedUp<S>(exec: (string, S) -> S, db: Database<S>, ms: seq<Migration>)
    requires ChecksumsMatch(ms, db.ledger)
    ensures var pending := Pending(ms, db.ledger.Keys);
            UpAttempt(exec, db, ms, {}) == CommitFirst(exec, db, pending, |pending|)
  {
    ReachesAll(Pending(ms, db.ledger.Keys));
  }

  /**
   * However often Up is run and wherever it fails, the migrations committed so far are the
   * first of those pending at the start, each once and in order; the first run to succeed
   * leaves the schema and the ledger of a single uninterrupted run.
   */
  lemma RetriesResume<S(!new)>(exec: (string, S) -> S, db: Database<S>, ms: seq<Migration>, fails: seq<set<int>>)
    requires InOrder(ms) && ChecksumsMatch(ms, db.ledger)
    ensures var pending, run := Pending(ms, db.ledger.Keys), Attempts(exec, db, ms, fails);
            && InOrder(pending) && Progress(exec, db, pending, run)
            && (run.ok ==> run.db == UpAttempt(exec, db, ms, {}).db)
  {
    PendingInOrder(ms, db.ledger.Keys);
    UninterruptedUp(exec, db, ms);
    RetriesProgress(exec, db, ms, fails);
  }

  // ------------------------------------------------------------ concurrency

  /** Where one Up process is. `applied` is the ledger it read; `next` the file it has come to. */
  datatype Pc = Starting | Locked | Applying(applied: set<int>, next: nat) | Finished(ok: bool)

  datatype World<S> = World(db: Database<S>, committed: seq<Migration>, lock: Option<nat>, procs: map<nat, Pc>)

  datatype Action =
    | Start(proc: nat)
    | TakeLock(proc: nat)
    | ReadLedger(proc: nat)
    | Advance(proc: nat, fails: bool)
    | Stop(proc: nat)

  function Finish<S>(w: World<S>, proc: nat, ok: bool): World<S> {
    w.(procs := w.procs[proc := Finished(ok)], lock := if w.lock == Some(proc) then None else w.lock)
  }

  /**
   * Loading the files comes before the lock, reading the ledger after it; the lock is held to
   * the end. Each process has the files of its own binary.
   */
  function Step<S>(exec: (string, S) -> S, files: nat -> seq<Migration>, w: World<S>, a: Action): World<S> {
    var p := a.proc;
    var ms := files(p);
    if a.Start? then (if p in w.procs then w else w.(procs := w.procs[p := Starting]))
    else if p !in w.procs then w
    else match (a, w.procs[p])
      case (TakeLock(_), Starting) =>
        if w.lock.None? then w.(lock := Some(p), procs := w.procs[p := Locked]) else w
      case (ReadLedger(_), Locked) =>
        if ChecksumsMatch(ms, w.db.ledger) then w.(procs := w.procs[p := Applying(w.db.ledger.Keys, 0)])
        else Finish(w, p, false)
      case (Advance(_, fails), Applying(applied, next)) =>
        if next >= |ms| then Finish(w, p, true)
        else if ms[next].version in applied then w.(procs := w.procs[p := Applying(applied, next + 1)])
        else if fails then Finish(w, p, false)
        else w.(db := Apply(exec, w.db, ms[next]), committed := w.committed + [ms[next]],
                procs := w.procs[p := Applying(applied, next + 1)])
      case (Stop(_), _) => if w.procs[p].Finished? then w else Finish(w, p, false)
      case _ => w
  }

  function Run<S>(exec: (string, S) -> S, files: nat -> seq<Migration>, w: World<S>, actions: seq<Action>): World<S> {
    if actions == [] then w
    else Step(exec, files, Run(exec, files, w, actions[..|actions| - 1]), actions[|actions| - 1])
  }

  function Initial<S>(db: Database<S>): World<S> {
    World(db, [], None, map[])
  }

  predicate Holds(pc: Pc) {
    pc.Locked? || pc.Applying?
  }

  // Binaries with any files at all.

  ghost predicate AllInOrder(files: nat -> seq<Migration>) {
    forall p :: InOrder(files(p))
  }

  /** Every file is recorded, under its own checksum. */
  predicate AllRecorded(ms: seq<Migration>, ledger: map<int, Record>) {
    forall m :: m in ms ==> m.version in ledger && ledger[m.version].checksum == m.checksum
  }

  /** A version is either in the ledger from the start or committed, and committed only once. */
  ghost predicate OnceInv<S>(db0: Database<S>, db: Database<S>, committed: seq<Migration>) {
    && (forall v :: v in db0.ledger ==> v in db.ledger)
    && (forall i :: 0 <= i < |committed| ==> committed[i].version in db.ledger && committed[i].version !in db0.ledger)
    && (forall i, j :: 0 <= i < j < |committed| ==> committed[i].version != committed[j].version)
  }

  /** The lock holder's view of the ledger is right about every file it has yet to come to. */
  ghost predicate HolderInv(ms: seq<Migration>, ledger: map<int, Record>, applied: set<int>, next: nat) {
    && next <= |ms| && ChecksumsMatch(ms, ledger)
    && (forall i :: 0 <= i < next ==> ms[i].version in ledger)
    && (forall i :: next <= i < |ms| ==> (ms[i].version in ledger <==> ms[i].version in applied))
  }

  ghost predicate RollingInv<S>(exec: (string, S) -> S, files: nat -> seq<Migration>, db0: Database<S>, w: World<S>) {
    && w.db == ApplyFirst(exec, db0, w.committed, |w.committed|)
    && OnceInv(db0, w.db, w.committed)
    && (forall p :: p in w.procs && Holds(w.procs[p]) ==> w.lock == Some(p))
    && (forall p :: p in w.procs && w.procs[p].Applying? ==>
          HolderInv(files(p), w.db.ledger, w.procs[p].applied, w.procs[p].next))
    && (forall p :: p in w.procs && w.procs[p] == Finished(true) ==> AllRecorded(files(p), w.db.ledger))
  }

  lemma {:induction false} ApplyFirstExtends<S>(exec: (string, S) -> S, db: Database<S>, ms: seq<Migration>,
      more: seq<Migration>, n: nat)
    requires n <= |ms|
    ensures ApplyFirst(exec, db, ms + more, n) == ApplyFirst(exec, db, ms, n)
  {
    if n > 0 {
      ApplyFirstExtends(exec, db, ms, more, n - 1);
      assert (ms + more)[n - 1] == ms[n - 1];
    }
  }

  lemma CommitKeepsHolder(ms: seq<Migration>, ledger: map<int, Record>, applied: set<int>, next: nat)
    requires InOrder(ms) && HolderInv(ms, ledger, applied, next)
    requires next < |ms| && ms[next].version !in applied
    ensures ms[next].version !in ledger
    ensures HolderInv(ms, ledger[ms[next].version := Record(ms[next].name, ms[next].checksum)], applied, next + 1)
  {
    forall m | m in ms && m.version == ms[next].version ensures m == ms[next] {
      SameVersion(ms, m, ms[next]);
    }
  }

  lemma CommitKeepsOnce<S>(exec: (string, S) -> S, db0: Database<S>, db: Database<S>, committed: seq<Migration>,
      m: Migration)
    requires OnceInv(db0, db, committed) && m.version !in db.ledger
    ensures OnceInv(db0, Apply(exec, db, m), committed + [m])
  {
  }

  lemma CommitKeepsRecords(ms: seq<Migration>, ledger: map<int, Record>, m: Migration)
    requires AllRecorded(ms, ledger) && m.version !in ledger
    ensures AllRecorded(ms, ledger[m.version := Record(m.name, m.checksum)])
  {
  }

  lemma RollingCommit<S(!new)>(exec: (string, S) -> S, files: nat -> seq<Migration>, db0: Database<S>, w: World<S>,
      p: nat)
    requires AllInOrder(files) && RollingInv(exec, files, db0, w) && p in w.procs && w.procs[p].Applying?
    requires w.procs[p].next < |files(p)| && files(p)[w.procs[p].next].version !in w.procs[p].applied
    ensures RollingInv(exec, files, db0, Step(exec, files, w, Advance(p, false)))
  {
    var ms, next := files(p), w.procs[p].next;
    var t := Step(exec, files, w, Advance(p, false));
    assert HolderInv(ms, w.db.ledger, w.procs[p].applied, next);
    CommitKeepsHolder(ms, w.db.ledger, w.procs[p].applied, next);
    ApplyFirstExtends(exec, db0, w.committed, [ms[next]], |w.committed|);
    assert t.db == ApplyFirst(exec, db0, t.committed, |t.committed|);
    CommitKeepsOnce(exec, db0, w.db, w.committed, ms[next]);
    forall q | q in t.procs && t.procs[q] == Finished(true) ensures AllRecorded(files(q), t.db.ledger) {
      assert AllRecorded(files(q), w.db.ledger);
      CommitKeepsRecords(files(q), w.db.ledger, ms[next]);
    }
  }

  lemma RollingSkip<S(!new)>(exec: (string, S) -> S, files: nat -> seq<Migration>, db0: Database<S>, w: World<S>,
      p: nat, fails: bool)
    requires RollingInv(exec, files, db0, w) && p in w.procs && w.procs[p].Applying?
    requires w.procs[p].next >= |files(p)| || files(p)[w.procs[p].next].version in w.procs[p].applied || fails
    ensures RollingInv(exec, files, db0, Step(exec, files, w, Advance(p, fails)))
  {
    assert HolderInv(files(p), w.db.ledger, w.procs[p].applied, w.procs[p].next);
  }

  lemma RollingRead<S(!new)>(exec: (string, S) -> S, files: nat -> seq<Migration>, db0: Database<S>, w: World<S>,
      p: nat)
    requires RollingInv(exec, files, db0, w)
    ensures RollingInv(exec, files, db0, Step(exec, files, w, ReadLedger(p)))
  {
  }

  lemma RollingStep<S(!new)>(exec: (string, S) -> S, files: nat -> seq<Migration>, db0: Database<S>, w: World<S>,
      a: Action)
    requires AllInOrder(files) && RollingInv(exec, files, db0, w)
    ensures RollingInv(exec, files, db0, Step(exec, files, w, a))
  {
    var p := a.proc;
    if a.Advance? && p in w.procs && w.procs[p].Applying? {
      if w.procs[p].next < |files(p)| && files(p)[w.procs[p].next].version !in w.procs[p].applied && !a.fails {
        RollingCommit(exec, files, db0, w, p);
      } else {
        RollingSkip(exec, files, db0, w, p, a.fails);
      }
    } else if a.ReadLedger? {
      RollingRead(exec, files, db0, w, p);
    }
  }

  lemma {:induction false} RollingRun<S(!new)>(exec: (string, S) -> S, files: nat -> seq<Migration>, db0: Database<S>,
      actions: seq<Action>)
    requires AllInOrder(files)
    ensures RollingInv(exec, files, db0, Run(exec, files, Initial(db0), actions))
  {
    if actions != [] {
      var before := actions[..|actions| - 1];
      RollingRun(exec, files, db0, before);
      RollingStep(exec, files, db0, Run(exec, files, Initial(db0), before), actions[|actions| - 1]);
    }
  }

  /**
   * A rolling deploy. Any number of processes run Up at once, each with whatever files its
   * binary holds, in any interleaving, failing or dying anywhere: no version is committed twice
   * or over one already recorded, the database is what the commits made it, and a process that
   * reports success leaves every file of its own recorded under its own checksum.
   */
  lemma RollingUps<S(!new)>(exec: (string, S) -> S, files: nat -> seq<Migration>, db0: Database<S>,
      actions: seq<Action>)
    requires AllInOrder(files)
    ensures var w := Run(exec, files, Initial(db0), actions);
            && w.db == ApplyFirst(exec, db0, w.committed, |w.committed|)
            && (forall i :: 0 <= i < |w.committed| ==> w.committed[i].version !in db0.ledger)
            && (forall i, j :: 0 <= i < j < |w.committed| ==> w.committed[i].version != w.committed[j].version)
            && (forall p, q :: p in w.procs && q in w.procs && Holds(w.procs[p]) && Holds(w.procs[q]) ==> p == q)
            && (forall p :: p in w.procs && w.procs[p] == Finished(true) ==> AllRecorded(files(p), w.db.ledger))
  {
    RollingRun(exec, files, db0, actions);
  }

  /**
   * What a binary reports when every version it knows is applied, as an older one finds: it
   * commits nothing, whatever else is in the ledger, and succeeds exactly when no file of its
   * own was recorded under another checksum.
   */
  lemma OlderBinaryReports<S>(exec: (string, S) -> S, db: Database<S>, ms: seq<Migration>, fails: set<int>)
    requires forall m :: m in ms ==> m.version in db.ledger
    ensures UpAttempt(exec, db, ms, fails) == Attempt(db, [], AllRecorded(ms, db.ledger))
  {
    NonePending(ms, db.ledger.Keys);
  }

  // Binaries of one line of development: the files of each are the first of one list.

  ghost predicate OneLine(files: nat -> seq<Migration>, ms: seq<Migration>) {
    forall p :: files(p) <= ms
  }

  /** What is left of a list once its first n are done. */
  function Rest(s: seq<Migration>, n: nat): seq<Migration> {
    if n <= |s| then s[n..] else []
  }

  /** From file `next` on, what the holder will apply of its files is its own pending ones less the first n. */
  predicate Due(f: seq<Migration>, own: seq<Migration>, n: nat, applied: set<int>, next: nat) {
    next <= |f| && Pending(f[next..], applied) == Rest(own, n)
  }

  /** What the lock holder has yet to apply is exactly what is still pending of its own files. */
  ghost predicate Inv<S(!new)>(exec: (string, S) -> S, files: nat -> seq<Migration>, ms: seq<Migration>,
      db0: Database<S>, w: World<S>) {
    var pending, n := Pending(ms, db0.ledger.Keys), |w.committed|;
    && n <= |pending| && w.committed == pending[..n]
    && w.db == ApplyFirst(exec, db0, pending, n)
    && (forall p :: p in w.procs && Holds(w.procs[p]) ==> w.lock == Some(p))
    && (forall p :: p in w.procs && w.procs[p].Applying? ==>
          Due(files(p), Pending(files(p), db0.ledger.Keys), n, w.procs[p].applied, w.procs[p].next))
    && (forall p :: p in w.procs && w.procs[p] == Finished(true) ==> |Pending(files(p), db0.ledger.Keys)| <= n)
  }

  lemma {:induction false} PendingOfFirst(f: seq<Migration>, ms: seq<Migration>, applied: set<int>)
    requires f <= ms
    ensures Pending(f, applied) <= Pending(ms, applied)
  {
    if f != [] {
      PendingOfFirst(f[1..], ms[1..], applied);
    }
  }

  lemma SameFirst<S>(exec: (string, S) -> S, db: Database<S>, a: seq<Migration>, b: seq<Migration>,
      n: nat)
    requires n <= |a| && a <= b
    ensures ApplyFirst(exec, db, a, n) == ApplyFirst(exec, db, b, n)
  {
    assert b == a + b[|a|..];
    ApplyFirstExtends(exec, db, a, b[|a|..], n);
  }

  lemma {:induction false} AppliedStaysApplied<S>(exec: (string, S) -> S, db: Database<S>, ms: seq<Migration>, i: nat,
      n: nat)
    requires i < n <= |ms|
    ensures ms[i].version in ApplyFirst(exec, db, ms, n).ledger
  {
    if i < n - 1 {
      AppliedStaysApplied(exec, db, ms, i, n - 1);
    }
  }

  lemma {:induction false} LedgerGrows<S>(exec: (string, S) -> S, db: Database<S>, ms: seq<Migration>, n: nat)
    requires n <= |ms|
    ensures db.ledger.Keys <= ApplyFirst(exec, db, ms, n).ledger.Keys
  {
    if n > 0 {
      LedgerGrows(exec, db, ms, n - 1);
    }
  }

  /** What is pending of the first files once n of all the pending ones are applied. */
  lemma PendingOfFirstAfter<S>(exec: (string, S) -> S, db: Database<S>, f: seq<Migration>, ms: seq<Migration>, n: nat)
    requires InOrder(ms) && f <= ms && n <= |Pending(ms, db.ledger.Keys)|
    ensures var after := ApplyFirst(exec, db, Pending(ms, db.ledger.Keys), n);
            Pending(f, after.ledger.Keys) == Rest(Pending(f, db.ledger.Keys), n)
  {
    var own, all := Pending(f, db.ledger.Keys), Pending(ms, db.ledger.Keys);
    var after := ApplyFirst(exec, db, all, n);
    PendingOfFirst(f, ms, db.ledger.Keys);
    if n <= |own| {
      PendingAfter(exec, db, f, n);
      SameFirst(exec, db, own, all, n);
    } else {
      LedgerGrows(exec, db, all, n);
      forall m | m in f ensures m.version in after.ledger {
        PendingMembers(f, db.ledger.Keys, m);
        if m in own {
          var i :| 0 <= i < |own| && own[i] == m;
          AppliedStaysApplied(exec, db, all, i, n);
        }
      }
      NonePending(f, after.ledger.Keys);
    }
  }

  lemma StepKeepsInv<S(!new)>(exec: (string, S) -> S, files: nat -> seq<Migration>, ms: seq<Migration>,
      db0: Database<S>, w: World<S>, a: Action)
    requires InOrder(ms) && OneLine(files, ms) && ChecksumsMatch(ms, db0.ledger) && Inv(exec, files, ms, db0, w)
    ensures Inv(exec, files, ms, db0, Step(exec, files, w, a))
  {
    if a.proc in w.procs && a.Advance? && w.procs[a.proc].Applying? {
      AdvanceKeepsInv(exec, files, ms, db0, w, a.proc, a.fails);
    } else if a.ReadLedger? {
      PendingOfFirstAfter(exec, db0, files(a.proc), ms, |w.committed|);
      assert files(a.proc)[0..] == files(a.proc);
    }
  }

  lemma AdvanceKeepsInv<S(!new)>(exec: (string, S) -> S, files: nat -> seq<Migration>, ms: seq<Migration>,
      db0: Database<S>, w: World<S>, p: nat, fails: bool)
    requires OneLine(files, ms) && Inv(exec, files, ms, db0, w) && p in w.procs && w.procs[p].Applying?
    ensures Inv(exec, files, ms, db0, Step(exec, files, w, Advance(p, fails)))
  {
    var f, next := files(p), w.procs[p].next;
    if next == |f| {
      assert Rest(Pending(f, db0.ledger.Keys), |w.committed|) == [];
    } else {
      assert f[next..][0] == f[next] && f[next..][1..] == f[next + 1..];
      if f[next].version !in w.procs[p].applied && !fails {
        CommitKeepsInv(exec, files, ms, db0, w, p);
      }
    }
  }

  lemma CommitKeepsInv<S(!new)>(exec: (string, S) -> S, files: nat -> seq<Migration>, ms: seq<Migration>,
      db0: Database<S>, w: World<S>, p: nat)
    requires OneLine(files, ms) && Inv(exec, files, ms, db0, w) && p in w.procs && w.procs[p].Applying?
    requires w.procs[p].next < |files(p)| && files(p)[w.procs[p].next].version !in w.procs[p].applied
    ensures Inv(exec, files, ms, db0, Step(exec, files, w, Advance(p, false)))
  {
    var f, n := files(p), |w.committed|;
    var own, pending := Pending(f, db0.ledger.Keys), Pending(ms, db0.ledger.Keys);
    PendingOfFirst(f, ms, db0.ledger.Keys);
    NextIsPending(f, w.procs[p].next, w.procs[p].applied, own, pending, n);
  }

  /** The next file to apply is the next of all that are pending. */
  lemma NextIsPending(f: seq<Migration>, next: nat, applied: set<int>, own: seq<Migration>, pending: seq<Migration>,
      n: nat)
    requires next < |f| && f[next].version !in applied && own <= pending && Due(f, own, n, applied, next)
    ensures n < |own| && pending[n] == f[next] && pending[..n] + [f[next]] == pending[..n + 1]
    ensures Due(f, own, n + 1, applied, next + 1)
  {
    assert f[next..][0] == f[next] && f[next..][1..] == f[next + 1..];
    assert own[n..][0] == f[next] && own[n..][1..] == own[n + 1..];
    assert own[n] == pending[n];
  }

  lemma {:induction false} RunKeepsInv<S(!new)>(exec: (string, S) -> S, files: nat -> seq<Migration>,
      ms: seq<Migration>, db0: Database<S>, actions: seq<Action>)
    requires InOrder(ms) && OneLine(files, ms) && ChecksumsMatch(ms, db0.ledger)
    ensures Inv(exec, files, ms, db0, Run(exec, files, Initial(db0), actions))
  {
    if actions != [] {
      var before := actions[..|actions| - 1];
      RunKeepsInv(exec, files, ms, db0, before);
      StepKeepsInv(exec, files, ms, db0, Run(exec, files, Initial(db0), before), actions[|actions| - 1]);
    }
  }

  lemma SuccessLeavesNothing<S(!new)>(exec: (string, S) -> S, files: nat -> seq<Migration>, ms: seq<Migration>,
      db0: Database<S>, w: World<S>, p: nat)
    requires InOrder(ms) && OneLine(files, ms) && ChecksumsMatch(ms, db0.ledger)
    requires Inv(exec, files, ms, db0, w) && p in w.procs && w.procs[p] == Finished(true)
    ensures Pending(files(p), w.db.ledger.Keys) == []
    ensures files(p) == ms ==> w.db == UpAttempt(exec, db0, ms, {}).db
  {
    PendingOfFirstAfter(exec, db0, files(p), ms, |w.committed|);
    UninterruptedUp(exec, db0, ms);
  }

  /**
   * Any number of processes running Up at once, in any interleaving, failing or dying anywhere,
   * older binaries beside newer ones: each migration is committed at most once, in version
   * order, by whoever holds the lock; one that reports success leaves nothing of its own
   * pending; and when one that has every file does, all is as one uninterrupted run leaves it.
   */
  lemma ConcurrentUps<S(!new)>(exec: (string, S) -> S, files: nat -> seq<Migration>, ms: seq<Migration>,
      db0: Database<S>, actions: seq<Action>)
    requires InOrder(ms) && OneLine(files, ms) && ChecksumsMatch(ms, db0.ledger)
    ensures var pending, w := Pending(ms, db0.ledger.Keys), Run(exec, files, Initial(db0), actions);
            && InOrder(w.committed)
            && |w.committed| <= |pending| && w.committed == pending[..|w.committed|]
            && w.db == ApplyFirst(exec, db0, pending, |w.committed|)
            && (forall p, q :: p in w.procs && q in w.procs && Holds(w.procs[p]) && Holds(w.procs[q]) ==> p == q)
            && (forall p :: p in w.procs && w.procs[p] == Finished(true) ==>
                  && Pending(files(p), w.db.ledger.Keys) == []
                  && (files(p) == ms ==> w.db == UpAttempt(exec, db0, ms, {}).db))
  {
    RunKeepsInv(exec, files, ms, db0, actions);
    PendingInOrder(ms, db0.ledger.Keys);
    var w := Run(exec, files, Initial(db0), actions);
    forall p | p in w.procs && w.procs[p] == Finished(true)
      ensures Pending(files(p), w.db.ledger.Keys) == []
      ensures files(p) == ms ==> w.db == UpAttempt(exec, db0, ms, {}).db
    {
      SuccessLeavesNothing(exec, files, ms, db0, w, p);
    }
  }

  // --------------------------------------------------------------- reverting

  function Revert<S>(exec: (string, S) -> S, db: Database<S>, m: Migration): Database<S> {
    Database(exec(m.down, db.schema), db.ledger - {m.version})
  }

  function Reversed(s: seq<int>): (r: seq<int>)
    ensures |r| == |s| && forall i :: 0 <= i < |s| ==> r[i] == s[|s| - 1 - i]
  {
    seq(|s|, i requires 0 <= i < |s| => s[|s| - 1 - i])
  }

  /** Down over the applied versions from the i-th on; it stops at the first it cannot revert. */
  function DownRun<S>(exec: (string, S) -> S, db: Database<S>, files: map<int, Migration>, order: seq<int>,
      i: nat, steps: nat, fails: set<int>)
    : (r: (Database<S>, bool))
    requires i <= |order|
    decreases |order| - i
  {
    if i == |order| || i >= steps then (db, true)
    else if order[i] !in files || Blank(files[order[i]].down) || order[i] in fails then (db, false)
    else DownRun(exec, Revert(exec, db, files[order[i]]), files, order, i + 1, steps, fails)
  }

  // Whatever the files, the database and the scripts.

  /** Where Down stops: at its quota, at the end, or at a version it cannot revert. */
  function Stops(files: map<int, Migration>, order: seq<int>, i: nat, steps: nat, fails: set<int>): (k: nat)
    requires i <= |order|
    ensures i <= k <= |order| && (i <= steps ==> k <= steps)
    ensures forall j :: i <= j < k ==> CanRevert(files, order[j], fails)
    ensures k < |order| && k < steps ==> !CanRevert(files, order[k], fails)
    decreases |order| - i
  {
    if i == |order| || i >= steps || !CanRevert(files, order[i], fails) then i
    else Stops(files, order, i + 1, steps, fails)
  }

  /** The version has a file, the file has a down script, and running it does not fail. */
  predicate CanRevert(files: map<int, Migration>, version: int, fails: set<int>) {
    version in files && !Blank(files[version].down) && version !in fails
  }

  /** The database once the versions from the i-th to the k-th are reverted in turn. */
  function TakenOff<S>(exec: (string, S) -> S, db: Database<S>, files: map<int, Migration>, order: seq<int>, i: nat,
      k: nat): Database<S>
    requires i <= k <= |order| && forall j :: i <= j < k ==> order[j] in files
    decreases k - i
  {
    if i == k then db else TakenOff(exec, Revert(exec, db, files[order[i]]), files, order, i + 1, k)
  }

  lemma {:induction false} DownStops<S>(exec: (string, S) -> S, db: Database<S>, files: map<int, Migration>,
      order: seq<int>, i: nat, steps: nat, fails: set<int>)
    requires i <= |order|
    ensures var k := Stops(files, order, i, steps, fails);
            DownRun(exec, db, files, order, i, steps, fails)
              == (TakenOff(exec, db, files, order, i, k), k == |order| || k >= steps)
    decreases |order| - i
  {
    if i < |order| && i < steps && CanRevert(files, order[i], fails) {
      DownStops(exec, Revert(exec, db, files[order[i]]), files, order, i + 1, steps, fails);
    }
  }

  lemma {:induction false} LedgerTakenOff<S>(exec: (string, S) -> S, db: Database<S>, files: map<int, Migration>,
      order: seq<int>, i: nat, k: nat)
    requires i <= k <= |order| && forall j :: i <= j < k ==> order[j] in files
    requires forall v :: v in files ==> files[v].version == v
    ensures TakenOff(exec, db, files, order, i, k).ledger == db.ledger - (set v | v in order[i..k])
    decreases k - i
  {
    if i < k {
      LedgerTakenOff(exec, Revert(exec, db, files[order[i]]), files, order, i + 1, k);
      assert order[i..k] == [order[i]] + order[i + 1..k];
    }
  }

  ghost predicate Undoes<S(!new)>(exec: (string, S) -> S, m: Migration) {
    forall s :: exec(m.down, exec(m.up, s)) == s
  }

  /** Every down script there is undoes its up script; a file may be without one. */
  ghost predicate AllUndo<S(!new)>(exec: (string, S) -> S, ms: seq<Migration>) {
    forall m :: m in ms && !Blank(m.down) ==> Undoes(exec, m)
  }

  function FilesOf(ms: seq<Migration>): map<int, Migration>
    requires InOrder(ms)
  {
    forall a, b | a in ms && b in ms && a.version == b.version ensures a == b {
      SameVersion(ms, a, b);
    }
    map m | m in ms :: m.version := m
  }

  function Versions(ms: seq<Migration>, n: nat): (r: seq<int>)
    requires n <= |ms|
    ensures |r| == n && forall i :: 0 <= i < n ==> r[i] == ms[i].version
  {
    seq(n, i requires 0 <= i < n => ms[i].version)
  }

  lemma {:induction false} LedgerOfPrefix<S>(exec: (string, S) -> S, db0: Database<S>, ms: seq<Migration>, n: nat,
      v: int)
    requires n <= |ms| && db0.ledger == map[]
    ensures v in ApplyFirst(exec, db0, ms, n).ledger <==> v in Versions(ms, n)
  {
    if n > 0 {
      LedgerOfPrefix(exec, db0, ms, n - 1, v);
      assert Versions(ms, n) == Versions(ms, n - 1) + [ms[n - 1].version];
    }
  }

  lemma AppliedOrder<S>(exec: (string, S) -> S, db0: Database<S>, ms: seq<Migration>, n: nat)
    requires InOrder(ms) && n <= |ms| && db0.ledger == map[]
    ensures Sorted(ApplyFirst(exec, db0, ms, n).ledger.Keys) == Versions(ms, n)
  {
    var keys := ApplyFirst(exec, db0, ms, n).ledger.Keys;
    forall v ensures v in keys <==> v in Versions(ms, n) {
      LedgerOfPrefix(exec, db0, ms, n, v);
    }
    SortedLists(keys);
    AscendingUnique(Sorted(keys), Versions(ms, n));
  }

  lemma RevertLast<S(!new)>(exec: (string, S) -> S, db0: Database<S>, ms: seq<Migration>, n: nat)
    requires InOrder(ms) && 0 < n <= |ms| && db0.ledger == map[] && Undoes(exec, ms[n - 1])
    ensures Revert(exec, ApplyFirst(exec, db0, ms, n), ms[n - 1]) == ApplyFirst(exec, db0, ms, n - 1)
  {
    var before, last := ApplyFirst(exec, db0, ms, n - 1), ms[n - 1];
    LedgerOfPrefix(exec, db0, ms, n - 1, last.version);
    assert before.ledger[last.version := Record(last.name, last.checksum)] - {last.version} == before.ledger;
  }

  /** How many migrations Down has reverted when its quota, the list, a missing script or a failure ends it. */
  function Reverts(ms: seq<Migration>, n: nat, i: nat, steps: nat, fails: set<int>): (k: nat)
    requires i <= n <= |ms|
    ensures i <= k <= n && (i <= steps ==> k <= steps)
    ensures k < n && k < steps ==> Blank(ms[n - 1 - k].down) || ms[n - 1 - k].version in fails
    decreases n - i
  {
    if i == n || i >= steps || Blank(ms[n - 1 - i].down) || ms[n - 1 - i].version in fails then i
    else Reverts(ms, n, i + 1, steps, fails)
  }

  ghost predicate Indexes(files: map<int, Migration>, ms: seq<Migration>) {
    forall j :: 0 <= j < |ms| ==> ms[j].version in files && files[ms[j].version] == ms[j]
  }

  ghost predicate Backwards(order: seq<int>, ms: seq<Migration>, n: nat) {
    n <= |ms| && |order| == n && forall j :: 0 <= j < n ==> order[j] == ms[n - 1 - j].version
  }

  /** The down script of file n takes it off. */
  predicate Reverted<S(==)>(exec: (string, S) -> S, db0: Database<S>, ms: seq<Migration>, n: nat)
    requires 0 < n <= |ms|
  {
    Revert(exec, ApplyFirst(exec, db0, ms, n), ms[n - 1]) == ApplyFirst(exec, db0, ms, n - 1)
  }

  ghost predicate PeelsOff<S>(exec: (string, S) -> S, db0: Database<S>, ms: seq<Migration>, n: nat)
    requires n <= |ms|
  {
    forall j :: 0 < j <= n && !Blank(ms[j - 1].down) ==> Reverted(exec, db0, ms, j)
  }

  lemma {:induction false} RevertsOn<S(!new)>(exec: (string, S) -> S, db0: Database<S>, ms: seq<Migration>, n: nat,
      files: map<int, Migration>, order: seq<int>, i: nat, steps: nat, fails: set<int>)
    requires i <= n <= |ms| && i <= steps && PeelsOff(exec, db0, ms, n)
    requires Indexes(files, ms) && Backwards(order, ms, n)
    ensures var k := Reverts(ms, n, i, steps, fails);
            DownRun(exec, ApplyFirst(exec, db0, ms, n - i), files, order, i, steps, fails)
              == (ApplyFirst(exec, db0, ms, n - k), k == steps || k == n)
    decreases n - i
  {
    if i < n && i < steps {
      var m := ms[n - 1 - i];
      assert order[i] == m.version;
      if !Blank(m.down) && m.version !in fails {
        assert Reverted(exec, db0, ms, n - i);
        RevertsOn(exec, db0, ms, n, files, order, i + 1, steps, fails);
      }
    }
  }

  /** The applied versions, highest first. */
  function Descending(ledger: map<int, Record>): seq<int> {
    Reversed(Sorted(ledger.Keys))
  }

  /** When the first n files are applied, Down's order is theirs, last first. */
  lemma DescendingOrder<S>(exec: (string, S) -> S, db0: Database<S>, ms: seq<Migration>, n: nat)
    requires InOrder(ms) && n <= |ms| && db0.ledger == map[]
    ensures Backwards(Descending(ApplyFirst(exec, db0, ms, n).ledger), ms, n)
  {
    AppliedOrder(exec, db0, ms, n);
  }

  /** Down(steps) of a database: the files by version, and what the ledger holds, last first. */
  function DownAttempt<S>(exec: (string, S) -> S, db: Database<S>, ms: seq<Migration>, steps: nat, fails: set<int>)
    : (Database<S>, bool)
    requires InOrder(ms)
  {
    DownRun(exec, db, FilesOf(ms), Descending(db.ledger), 0, steps, fails)
  }

  /**
   * Down of any database, with any files and scripts and failures anywhere. It takes the
   * highest versions off the ledger, no more than asked, and runs their down scripts in that
   * order; each has a file with a script that is not blank. It succeeds exactly when it took as
   * many as asked or all there were, and otherwise the highest version left has no file, or no
   * down script, or failed.
   */
  lemma DownIsExact<S>(exec: (string, S) -> S, db: Database<S>, ms: seq<Migration>, steps: nat, fails: set<int>)
    requires InOrder(ms)
    ensures var files, order := FilesOf(ms), Descending(db.ledger);
            && |order| == |db.ledger| && (forall i, j :: 0 <= i < j < |order| ==> order[i] > order[j])
            && var k := Stops(files, order, 0, steps, fails);
               && k <= steps && k <= |order|
               && (forall i :: 0 <= i < k ==>
                     order[i] in files && !Blank(files[order[i]].down) && order[i] !in fails)
               && DownAttempt(exec, db, ms, steps, fails)
                    == (TakenOff(exec, db, files, order, 0, k), k == steps || k == |order|)
               && DownAttempt(exec, db, ms, steps, fails).0.ledger == db.ledger - (set v | v in order[..k])
               && (k < steps && k < |order| ==>
                     order[k] !in files || Blank(files[order[k]].down) || order[k] in fails)
  {
    var files, order := FilesOf(ms), Descending(db.ledger);
    SortedLists(db.ledger.Keys);
    DownTakesOff(exec, db, files, order, steps, fails);
  }

  lemma DownTakesOff<S>(exec: (string, S) -> S, db: Database<S>, files: map<int, Migration>, order: seq<int>,
      steps: nat, fails: set<int>)
    requires forall v :: v in files ==> files[v].version == v
    ensures var k := Stops(files, order, 0, steps, fails);
            && DownRun(exec, db, files, order, 0, steps, fails)
                 == (TakenOff(exec, db, files, order, 0, k), k == steps || k == |order|)
            && TakenOff(exec, db, files, order, 0, k).ledger == db.ledger - (set v | v in order[..k])
  {
    var k := Stops(files, order, 0, steps, fails);
    DownStops(exec, db, files, order, 0, steps, fails);
    LedgerTakenOff(exec, db, files, order, 0, k);
    assert order[0..k] == order[..k];
  }

  /**
   * If every down script there is undoes its up script and the first n files are applied, Down(steps)
   * takes off files n, n - 1, ... one by one: after k of them schema and ledger are those in
   * which the first n - k were applied, and k falls short of steps and n only at a failure or
   * at a file without a down script.
   */
  lemma DownReverts<S(!new)>(exec: (string, S) -> S, db0: Database<S>, ms: seq<Migration>, n: nat, steps: nat,
      fails: set<int>)
    requires InOrder(ms) && n <= |ms| && db0.ledger == map[] && AllUndo(exec, ms)
    ensures var k := Reverts(ms, n, 0, steps, fails);
            DownAttempt(exec, ApplyFirst(exec, db0, ms, n), ms, steps, fails)
              == (ApplyFirst(exec, db0, ms, n - k), k == steps || k == n)
  {
    FilesIndex(ms);
    DescendingOrder(exec, db0, ms, n);
    RevertsFromTop(exec, db0, ms, n, FilesOf(ms), Descending(ApplyFirst(exec, db0, ms, n).ledger), steps, fails);
  }

  lemma RevertsFromTop<S(!new)>(exec: (string, S) -> S, db0: Database<S>, ms: seq<Migration>, n: nat,
      files: map<int, Migration>, order: seq<int>, steps: nat, fails: set<int>)
    requires InOrder(ms) && n <= |ms| && db0.ledger == map[] && AllUndo(exec, ms)
    requires Indexes(files, ms) && Backwards(order, ms, n)
    ensures var k := Reverts(ms, n, 0, steps, fails);
            DownRun(exec, ApplyFirst(exec, db0, ms, n), files, order, 0, steps, fails)
              == (ApplyFirst(exec, db0, ms, n - k), k == steps || k == n)
  {
    forall j | 0 < j <= n && !Blank(ms[j - 1].down) ensures Reverted(exec, db0, ms, j) {
      assert ms[j - 1] in ms;
      RevertLast(exec, db0, ms, j);
    }
    RevertsOn(exec, db0, ms, n, files, order, 0, steps, fails);
  }

  lemma FilesIndex(ms: seq<Migration>)
    requires InOrder(ms)
    ensures Indexes(FilesOf(ms), ms)
  {
    assert forall j :: 0 <= j < |ms| ==> ms[j] in ms;
  }

  predicate Reversible(ms: seq<Migration>) {
    forall m :: m in ms ==> !Blank(m.down)
  }

  lemma {:induction false} RevertsUnhindered(ms: seq<Migration>, n: nat, i: nat, steps: nat)
    requires i <= n <= |ms| && i <= steps && Reversible(ms)
    ensures Reverts(ms, n, i, steps, {}) == if steps <= n then steps else n
    decreases n - i
  {
    if i < n && i < steps {
      assert ms[n - 1 - i] in ms;
      RevertsUnhindered(ms, n, i + 1, steps);
    }
  }

  /**
   * However far Down gets, Up then gives back what Up alone would have given; and if every file
   * can be reverted and nothing fails, Down(k) leaves the state before the last k files.
   */
  lemma DownThenUp<S(!new)>(exec: (string, S) -> S, db0: Database<S>, ms: seq<Migration>, n: nat, steps: nat,
      fails: set<int>)
    requires InOrder(ms) && n <= |ms| && db0.ledger == map[] && AllUndo(exec, ms)
    ensures var (down, ok) := DownAttempt(exec, ApplyFirst(exec, db0, ms, n), ms, steps, fails);
            && UpAttempt(exec, down, ms, {}).db == UpAttempt(exec, ApplyFirst(exec, db0, ms, n), ms, {}).db
            && (Reversible(ms) && fails == {} ==>
                  ok && down == ApplyFirst(exec, db0, ms, if steps <= n then n - steps else 0))
  {
    UpAfterDown(exec, db0, ms, n, steps, fails);
    if Reversible(ms) && fails == {} {
      DownUnhindered(exec, db0, ms, n, steps);
    }
  }

  lemma UpAfterDown<S(!new)>(exec: (string, S) -> S, db0: Database<S>, ms: seq<Migration>, n: nat, steps: nat,
      fails: set<int>)
    requires InOrder(ms) && n <= |ms| && db0.ledger == map[] && AllUndo(exec, ms)
    ensures var down := DownAttempt(exec, ApplyFirst(exec, db0, ms, n), ms, steps, fails).0;
            UpAttempt(exec, down, ms, {}).db == UpAttempt(exec, ApplyFirst(exec, db0, ms, n), ms, {}).db
  {
    DownReverts(exec, db0, ms, n, steps, fails);
    SameUp(exec, db0, ms, n, n - Reverts(ms, n, 0, steps, fails));
  }

  lemma DownUnhindered<S(!new)>(exec: (string, S) -> S, db0: Database<S>, ms: seq<Migration>, n: nat, steps: nat)
    requires InOrder(ms) && n <= |ms| && db0.ledger == map[] && AllUndo(exec, ms) && Reversible(ms)
    ensures DownAttempt(exec, ApplyFirst(exec, db0, ms, n), ms, steps, {})
              == (ApplyFirst(exec, db0, ms, if steps <= n then n - steps else 0), true)
  {
    DownReverts(exec, db0, ms, n, steps, {});
    RevertsUnhindered(ms, n, 0, steps);
  }

  lemma SameUp<S>(exec: (string, S) -> S, db0: Database<S>, ms: seq<Migration>, n: nat, m: nat)
    requires InOrder(ms) && m <= n <= |ms| && db0.ledger == map[]
    ensures UpAttempt(exec, ApplyFirst(exec, db0, ms, m), ms, {}).db
              == UpAttempt(exec, ApplyFirst(exec, db0, ms, n), ms, {}).db
  {
    UpFromPrefix(exec, db0, ms, m);
    UpFromPrefix(exec, db0, ms, n);
  }

  lemma UpFromPrefix<S>(exec: (string, S) -> S, db0: Database<S>, ms: seq<Migration>, n: nat)
    requires InOrder(ms) && n <= |ms| && db0.ledger == map[]
    ensures UpAttempt(exec, ApplyFirst(exec, db0, ms, n), ms, {}).db == ApplyFirst(exec, db0, ms, |ms|)
  {
    PendingAll(ms, db0.ledger.Keys);
    UpFinishes(exec, db0, ms, n);
  }

  // ------------------------------------------------------ overlapping Downs

  /** Where one Down process is. It takes no lock, and keeps the list of versions it read. */
  datatype DownPc = Asked(steps: nat) | Reverting(order: seq<int>, next: nat, steps: nat) | Over(ok: bool)

  datatype Downs<S> = Downs(db: Database<S>, procs: map<nat, DownPc>)

  datatype DownAction = Ask(proc: nat, steps: nat) | ReadApplied(proc: nat) | RevertNext(proc: nat, fails: bool)

  /** The version a process is about to revert, if its next step does revert one. */
  function Target<S>(files: map<int, Migration>, w: Downs<S>, a: DownAction): Option<int> {
    if !a.RevertNext? || a.fails || a.proc !in w.procs then None
    else match w.procs[a.proc]
      case Reverting(order, next, steps) =>
        if next < |order| && next < steps && order[next] in files && !Blank(files[order[next]].down)
        then Some(order[next]) else None
      case _ => None
  }

  function AfterRevert(pc: DownPc, reverts: bool): DownPc
    requires pc.Reverting?
  {
    if reverts then pc.(next := pc.next + 1) else Over(pc.next >= |pc.order| || pc.next >= pc.steps)
  }

  function DownStep<S>(exec: (string, S) -> S, files: map<int, Migration>, w: Downs<S>, a: DownAction): Downs<S> {
    var p := a.proc;
    if a.Ask? then (if p in w.procs then w else w.(procs := w.procs[p := Asked(a.steps)]))
    else if p !in w.procs then w
    else match (a, w.procs[p])
      case (ReadApplied(_), Asked(steps)) => w.(procs := w.procs[p := Reverting(Descending(w.db.ledger), 0, steps)])
      case (RevertNext(_, _), Reverting(_, _, _)) =>
        var v := Target(files, w, a);
        Downs(if v.Some? && v.value in files then Revert(exec, w.db, files[v.value]) else w.db,
              w.procs[p := AfterRevert(w.procs[p], v.Some?)])
      case _ => w
  }

  function DownsRun<S>(exec: (string, S) -> S, files: map<int, Migration>, w: Downs<S>,
      actions: seq<DownAction>): Downs<S> {
    if actions == [] then w
    else DownStep(exec, files, DownsRun(exec, files, w, actions[..|actions| - 1]), actions[|actions| - 1])
  }

  /** The version is the last one applied. */
  predicate OnTop(ledger: map<int, Record>, version: int) {
    version in ledger && forall v :: v in ledger ==> v <= version
  }

  lemma TopIsLast<S>(exec: (string, S) -> S, db0: Database<S>, ms: seq<Migration>, n: nat, v: int)
    requires InOrder(ms) && 0 < n <= |ms| && db0.ledger == map[]
    ensures OnTop(ApplyFirst(exec, db0, ms, n).ledger, v) <==> v == ms[n - 1].version
  {
    var ledger, top := ApplyFirst(exec, db0, ms, n).ledger, ms[n - 1].version;
    forall u ensures u in ledger <==> u in Versions(ms, n) {
      LedgerOfPrefix(exec, db0, ms, n, u);
    }
    assert Versions(ms, n)[n - 1] == top && top in ledger;
    assert forall u :: u in Versions(ms, n) ==> u <= top;
  }

  /**
   * Reverting one file of a database that holds the first n leaves the first n - 1 exactly when
   * that file is the last one applied. A Down that another process has overtaken reverts one
   * that is not.
   */
  lemma RevertsCleanly<S(!new)>(exec: (string, S) -> S, db0: Database<S>, ms: seq<Migration>, n: nat, m: Migration)
    requires InOrder(ms) && 0 < n <= |ms| && db0.ledger == map[] && AllUndo(exec, ms) && m in ms && !Blank(m.down)
    ensures Revert(exec, ApplyFirst(exec, db0, ms, n), m) == ApplyFirst(exec, db0, ms, n - 1) <==>
            OnTop(ApplyFirst(exec, db0, ms, n).ledger, m.version)
  {
    var last := ms[n - 1];
    assert last in ms;
    TopIsLast(exec, db0, ms, n, m.version);
    if m.version == last.version {
      SameVersion(ms, m, last);
      RevertLast(exec, db0, ms, n);
    } else {
      LedgerOfPrefix(exec, db0, ms, n - 1, last.version);
      assert last.version in Revert(exec, ApplyFirst(exec, db0, ms, n), m).ledger;
      assert last.version !in Versions(ms, n - 1);
    }
  }

  /** If the action reverts a file, it is the last one applied. */
  predicate Clean<S>(files: map<int, Migration>, w: Downs<S>, a: DownAction) {
    Target(files, w, a).Some? ==> OnTop(w.db.ledger, Target(files, w, a).value)
  }

  predicate CleanRun<S>(exec: (string, S) -> S, files: map<int, Migration>, w: Downs<S>, actions: seq<DownAction>) {
    actions == [] ||
    (CleanRun(exec, files, w, actions[..|actions| - 1])
     && Clean(files, DownsRun(exec, files, w, actions[..|actions| - 1]), actions[|actions| - 1]))
  }

  /** How many files the action reverts. */
  function Took<S>(files: map<int, Migration>, w: Downs<S>, a: DownAction): nat {
    if Target(files, w, a).Some? then 1 else 0
  }

  function TookInAll<S>(exec: (string, S) -> S, files: map<int, Migration>, w: Downs<S>,
      actions: seq<DownAction>): nat {
    if actions == [] then 0
    else
      var earlier := actions[..|actions| - 1];
      TookInAll(exec, files, w, earlier) + Took(files, DownsRun(exec, files, w, earlier), actions[|actions| - 1])
  }

  /** Of the first n files all but the last k are applied. */
  ghost predicate AllBut<S(!new)>(exec: (string, S) -> S, db0: Database<S>, ms: seq<Migration>, db: Database<S>, n: nat,
      k: nat)
    requires n <= |ms|
  {
    k <= n && db == ApplyFirst(exec, db0, ms, n - k)
  }

  /** So it is after every step of the run, k being the number of reverts so far. */
  ghost predicate OneByOne<S(!new)>(exec: (string, S) -> S, db0: Database<S>, ms: seq<Migration>,
      files: map<int, Migration>, w: Downs<S>, actions: seq<DownAction>, n: nat)
    requires n <= |ms|
  {
    && (actions != [] ==> OneByOne(exec, db0, ms, files, w, actions[..|actions| - 1], n))
    && AllBut(exec, db0, ms, DownsRun(exec, files, w, actions).db, n, TookInAll(exec, files, w, actions))
  }

  /** The files of a list, each under its version. */
  predicate FilesAre(files: map<int, Migration>, ms: seq<Migration>) {
    forall v :: v in files ==> files[v] in ms && files[v].version == v
  }

  /** A step takes off the last file, or none, exactly when it is clean. */
  lemma CleanExactly<S(!new)>(exec: (string, S) -> S, db0: Database<S>, ms: seq<Migration>,
      files: map<int, Migration>, w: Downs<S>, a: DownAction, n: nat, k: nat)
    requires InOrder(ms) && db0.ledger == map[] && AllUndo(exec, ms) && FilesAre(files, ms)
    requires n <= |ms| && AllBut(exec, db0, ms, w.db, n, k)
    ensures AllBut(exec, db0, ms, DownStep(exec, files, w, a).db, n, k + Took(files, w, a)) <==> Clean(files, w, a)
  {
    if Target(files, w, a).Some? {
      var v := Target(files, w, a).value;
      assert v in files;
      if k < n {
        RevertsCleanly(exec, db0, ms, n - k, files[v]);
      } else {
        assert w.db.ledger == map[];
      }
    }
  }

  lemma {:induction false} CleanRuns<S(!new)>(exec: (string, S) -> S, db0: Database<S>, ms: seq<Migration>,
      files: map<int, Migration>, w: Downs<S>, actions: seq<DownAction>, n: nat)
    requires InOrder(ms) && db0.ledger == map[] && AllUndo(exec, ms) && FilesAre(files, ms)
    requires n <= |ms| && w.db == ApplyFirst(exec, db0, ms, n)
    ensures OneByOne(exec, db0, ms, files, w, actions, n) <==> CleanRun(exec, files, w, actions)
  {
    if actions != [] {
      var earlier, last := actions[..|actions| - 1], actions[|actions| - 1];
      CleanRuns(exec, db0, ms, files, w, earlier, n);
      if OneByOne(exec, db0, ms, files, w, earlier, n) {
        var before, k := DownsRun(exec, files, w, earlier), TookInAll(exec, files, w, earlier);
        CleanExactly(exec, db0, ms, files, before, last, n, k);
      }
    }
  }

  /**
   * Any number of Downs at once, exactly: after every step of the run the files still applied
   * are the first n less one for every revert so far, if and only if each revert is of what is
   * then the last file applied.
   */
  lemma CleanDownsAreSafe<S(!new)>(exec: (string, S) -> S, db0: Database<S>, ms: seq<Migration>, w: Downs<S>,
      actions: seq<DownAction>, n: nat)
    requires InOrder(ms) && db0.ledger == map[] && AllUndo(exec, ms)
    requires n <= |ms| && w.db == ApplyFirst(exec, db0, ms, n)
    ensures OneByOne(exec, db0, ms, FilesOf(ms), w, actions, n) <==> CleanRun(exec, FilesOf(ms), w, actions)
  {
    CleanRuns(exec, db0, ms, FilesOf(ms), w, actions, n);
  }

  /** Scripts that count: every up adds one to the schema, every down takes one off. */
  ghost predicate Counts(exec: (string, int) -> int) {
    forall script, n :: exec(script, n) == if script == "up" then n + 1 else n - 1
  }

  const TwoFiles: seq<Migration> := [Migration(1, "a", "up", "down", "c"), Migration(2, "b", "up", "down", "d")]

  lemma CountingUndoes(exec: (string, int) -> int)
    requires Counts(exec)
    ensures InOrder(TwoFiles) && AllUndo(exec, TwoFiles) && Reversible(TwoFiles)
  {
    var down := "down";
    assert down[0] == 'd' && down[0] in down && !IsSpace('d');
    forall m | m in TwoFiles ensures Undoes(exec, m) {
      assert m.up == "up" && m.down == down;
    }
  }

  lemma BothApplied(exec: (string, int) -> int)
    requires Counts(exec)
    ensures var db0 := Database(0, map[]);
            && ApplyFirst(exec, db0, TwoFiles, 0).schema == 0 && ApplyFirst(exec, db0, TwoFiles, 0).ledger.Keys == {}
            && ApplyFirst(exec, db0, TwoFiles, 1).schema == 1 && ApplyFirst(exec, db0, TwoFiles, 1).ledger.Keys == {1}
            && ApplyFirst(exec, db0, TwoFiles, 2).schema == 2
                && ApplyFirst(exec, db0, TwoFiles, 2).ledger.Keys == {1, 2}
  {
    var db0 := Database(0, map[]);
    assert ApplyFirst(exec, db0, TwoFiles, 1) == Apply(exec, db0, TwoFiles[0]);
    assert ApplyFirst(exec, db0, TwoFiles, 2) == Apply(exec, ApplyFirst(exec, db0, TwoFiles, 1), TwoFiles[1]);
  }

  /**
   * Two Down(1)s that read the ledger before either wrote run the same script twice. The ledger
   * then says one file is applied, and the schema that none is.
   */
  lemma OverlappingDownsCollide(exec: (string, int) -> int)
    requires Counts(exec)
    ensures InOrder(TwoFiles) && AllUndo(exec, TwoFiles)
    ensures exists actions ::
              var db := ApplyFirst(exec, Database(0, map[]), TwoFiles, 2);
              var after := DownsRun(exec, FilesOf(TwoFiles), Downs(db, map[]), actions).db;
              after.ledger.Keys == {1} && after.schema == 0
              && forall n :: 0 <= n <= 2 ==> after != ApplyFirst(exec, Database(0, map[]), TwoFiles, n)
  {
    CountingUndoes(exec);
    BothApplied(exec);
    FilesIndex(TwoFiles);
    var files, db := FilesOf(TwoFiles), ApplyFirst(exec, Database(0, map[]), TwoFiles, 2);
    DescendingOrder(exec, Database(0, map[]), TwoFiles, 2);
    var w0 := Downs(db, map[]);
    BothRead(exec, files, w0);
    var order := Descending(db.ledger);
    var four := [Ask(0, 1), Ask(1, 1), ReadApplied(0), ReadApplied(1)];
    assert order[0] == 2 && files[2] == TwoFiles[1];
    CountingUndoes(exec);
    assert TwoFiles[1] in TwoFiles;
    var w4 := DownsRun(exec, files, w0, four);
    OneMoreDown(exec, files, w0, four, RevertNext(0, false));
    var w5 := DownStep(exec, files, w4, RevertNext(0, false));
    assert w5.db == Revert(exec, db, TwoFiles[1]) && w5.procs[1] == Reverting(order, 0, 1);
    OneMoreDown(exec, files, w0, four + [RevertNext(0, false)], RevertNext(1, false));
    var w6 := DownStep(exec, files, w5, RevertNext(1, false));
    assert w6.db == Revert(exec, w5.db, TwoFiles[1]) && w6.db.ledger.Keys == {1} && w6.db.schema == 0;
  }

  lemma BothRead(exec: (string, int) -> int, files: map<int, Migration>, w: Downs<int>)
    requires w.procs == map[]
    ensures var order, four := Descending(w.db.ledger), [Ask(0, 1), Ask(1, 1), ReadApplied(0), ReadApplied(1)];
            DownsRun(exec, files, w, four) == Downs(w.db, map[0 := Reverting(order, 0, 1), 1 := Reverting(order, 0, 1)])
  {
    assert [Ask(0, 1)][..0] == [];
    assert DownsRun(exec, files, w, [Ask(0, 1)]) == Downs(w.db, map[0 := Asked(1)]);
    OneMoreDown(exec, files, w, [Ask(0, 1)], Ask(1, 1));
    assert [Ask(0, 1)] + [Ask(1, 1)] == [Ask(0, 1), Ask(1, 1)];
    OneMoreDown(exec, files, w, [Ask(0, 1), Ask(1, 1)], ReadApplied(0));
    assert [Ask(0, 1), Ask(1, 1)] + [ReadApplied(0)] == [Ask(0, 1), Ask(1, 1), ReadApplied(0)];
    OneMoreDown(exec, files, w, [Ask(0, 1), Ask(1, 1), ReadApplied(0)], ReadApplied(1));
    assert [Ask(0, 1), Ask(1, 1), ReadApplied(0)] + [ReadApplied(1)]
        == [Ask(0, 1), Ask(1, 1), ReadApplied(0), ReadApplied(1)];
  }

  lemma OneMoreDown<S>(exec: (string, S) -> S, files: map<int, Migration>, w: Downs<S>, actions: seq<DownAction>,
      a: DownAction)
    ensures DownsRun(exec, files, w, actions + [a]) == DownStep(exec, files, DownsRun(exec, files, w, actions), a)
  {
    assert (actions + [a])[..|actions|] == actions;
  }

  // -------------------------------------------------------------- the runner

  class Migrator<S> {
    const exec: (string, S) -> S
    var schema: S
    var ledger: map<int, Record>

    ghost function Model(): Database<S>
      reads this
    {
      Database(schema, ledger)
    }

    constructor (exec: (string, S) -> S, schema: S)
      ensures this.exec == exec && this.schema == schema && ledger == map[]
    {
      this.exec := exec;
      this.schema := schema;
      this.ledger := map[];
    }

    /** Up, holding the advisory lock: check every checksum, then apply in file order what the ledger lacks. */
    method Up(ms: seq<Migration>, fails: set<int>) returns (ok: bool)
      requires InOrder(ms)
      modifies this
      ensures Model() == UpAttempt(exec, old(Model()), ms, fails).db
      ensures ok == UpAttempt(exec, old(Model()), ms, fails).ok
      ensures !ChecksumsMatch(ms, old(ledger)) ==> !ok && Model() == old(Model())
    {
      var applied := ledger;
      var edited := Edited(ms, applied);
      if edited {
        return false;
      }
      ghost var pending := Pending(ms, applied.Keys);
      ghost var done: nat := 0;
      assert ms[0..] == ms;
      ReachedFailure(pending, fails);
      for i := 0 to |ms|
        invariant done <= |pending| && pending[done..] == Pending(ms[i..], applied.Keys)
        invariant Model() == ApplyFirst(exec, old(Model()), pending, done)
        invariant done <= Reached(pending, fails)
      {
        assert ms[i..][0] == ms[i] && ms[i..][1..] == ms[i + 1..];
        if ms[i].version in applied {
          continue;
        }
        assert pending[done..][0] == ms[i] && pending[done..][1..] == pending[done + 1..];
        if ms[i].version in fails {
          return false;
        }
        schema := exec(ms[i].up, schema);
        ledger := ledger[ms[i].version := Record(ms[i].name, ms[i].checksum)];
        done := done + 1;
      }
      assert pending[done..] == [];
      return true;
    }

    /** Whether a file that was applied has changed since. */
    static method Edited(ms: seq<Migration>, applied: map<int, Record>) returns (edited: bool)
      ensures edited <==> !ChecksumsMatch(ms, applied)
    {
      for i := 0 to |ms|
        invariant ChecksumsMatch(ms[..i], applied)
      {
        if ms[i].version in applied && applied[ms[i].version].checksum != ms[i].checksum {
          assert ms[i] in ms;
          return true;
        }
      }
      assert ms[..|ms|] == ms;
      return false;
    }

    /** Down takes no advisory lock. */
    method Down(ms: seq<Migration>, steps: int, fails: set<int>) returns (ok: bool)
      requires InOrder(ms)
      modifies this
      ensures steps <= 0 ==> !ok && Model() == old(Model())
      ensures steps > 0 ==> (Model(), ok) == DownAttempt(exec, old(Model()), ms, steps, fails)
      ensures forall v :: v in old(ledger) && v !in ledger ==> CanRevert(FilesOf(ms), v, fails)
    {
      if steps <= 0 {
        return false;
      }
      var files := FilesOf(ms);
      var applied := Descending(ledger);
      ghost var want := DownRun(exec, Model(), files, applied, 0, steps, fails);
      for i := 0 to |applied|
        invariant i <= steps
        invariant DownRun(exec, Model(), files, applied, i, steps, fails) == want
        invariant forall v :: v in old(ledger) && v !in ledger ==> CanRevert(files, v, fails)
      {
        if i >= steps {
          break;
        }
        var version := applied[i];
        if version !in files || Blank(files[version].down) || version in fails {
          return false;
        }
        schema := exec(files[version].down, schema);
        ledger := ledger - {files[version].version};
      }
      return true;
    }
  }
}
