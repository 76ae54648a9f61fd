/** Email challenges and the recovery address they prove. Times are seconds. */
module Recovery {
  import opened Common
  import opened Ordering

  const EMAIL_CODE_TTL: nat := 900
  const EMAIL_CODE_ATTEMPTS: nat := 5

  datatype Purpose = Verify | Recover

  /**
   * An account found by its verified recovery address: the challenge that proved the address,
   * and how often the account's address had been changed by then.
   */
  datatype Found = Found(user: nat, address: string, proof: nat, changes: nat)

  /** The columns of a challenge that never change; `origin` is the lookup that a recovery's code was sent on. */
  datatype Challenge = Challenge(user: nat, address: string, hash: nat, purpose: Purpose, maxAttempts: nat,
                                 expires: nat, origin: Option<Found>)

  datatype Row = Row(attempts: nat, consumed: bool)

  /**
   * `proof` is the challenge whose code made the recovery address what it is; `changes` counts
   * the times an address was set or cleared.
   */
  datatype User = User(email: Option<string>, recovery: Option<string>, verifiedAt: Option<nat>,
                       proof: Option<nat>, changes: nat)

  /** The statement a verification has come to, or how it ended. */
  datatype Pc =
    | Reading
    | Burning(challenge: nat)
    | OverLimit(challenge: nat)
    | Comparing(challenge: nat, ticket: nat)
    | Consuming(challenge: nat)
    | Applying(challenge: nat)
    | Done(challenge: nat)
    | Failed

  /** `gate` is the lookup that let a recovery's completion in. */
  datatype Run = Run(user: nat, purpose: Purpose, hash: nat, gate: Option<Found>, pc: Pc)

  datatype Reset = Reset(user: nat, challenge: nat, gate: Found)

  /**
   * What happened to the challenges: every one ever issued, who drew each attempt ticket,
   * which tickets were compared, how many comparisons that made, and who was granted each.
   */
  datatype Log = Log(issued: map<nat, Challenge>, drawn: map<(nat, nat), nat>, compared: map<nat, set<nat>>,
                     comparisons: map<nat, nat>, granted: map<nat, nat>)

  /** The tables, the requests in flight, every two-step reset, and the log. */
  datatype State = State(now: nat, users: map<nat, User>, rows: map<nat, Row>, runs: map<nat, Run>,
                         found: map<nat, Found>, resets: seq<Reset>, log: Log)

  datatype Action =
    | Tick(elapsed: nat)
    | Join(user: nat)
    | SetPending(user: nat, address: string)
    | Clear(user: nat)
    | IssueVerify(challenge: nat, user: nat, address: string, hash: nat)
    | FindRecovery(start: nat, user: nat, address: string)
    | IssueRecover(challenge: nat, start: nat, hash: nat)
    | Sweep(challenge: nat)
    | BeginVerify(run: nat, user: nat, hash: nat)
    | BeginRecover(run: nat, user: nat, address: string, hash: nat)
    | Read(run: nat, challenge: nat)
    | Burn(run: nat)
    | RejectOver(run: nat)
    | Compare(run: nat)
    | Consume(run: nat)
    | Apply(run: nat)
    | Fail(run: nat)

  // ------------------------------------------------------------- statements

  function Pending(u: User, address: string): User {
    User(Some(address), None, None, None, u.changes + 1)
  }

  function Cleared(u: User): User {
    User(None, None, None, None, u.changes + 1)
  }

  function Verified(u: User, address: string, now: nat, challenge: nat): User {
    u.(recovery := Some(address), verifiedAt := Some(now), proof := Some(challenge))
  }

  const Newcomer: User := User(None, None, None, None, 0)

  predicate Recoverable(u: User, address: string) {
    u.recovery == Some(address) && u.verifiedAt.Some? && u.proof.Some?
  }

  function VerifyChallenge(now: nat, user: nat, address: string, hash: nat): Challenge {
    Challenge(user, address, hash, Verify, EMAIL_CODE_ATTEMPTS, now + EMAIL_CODE_TTL, None)
  }

  function RecoverChallenge(now: nat, f: Found, hash: nat): Challenge {
    Challenge(f.user, f.address, hash, Recover, EMAIL_CODE_ATTEMPTS, now + EMAIL_CODE_TTL, Some(f))
  }

  function Logged(log: Log, id: nat, c: Challenge): Log {
    log.(issued := log.issued[id := c], compared := log.compared[id := {}], comparisons := log.comparisons[id := 0])
  }

  function Issue(s: State, id: nat, c: Challenge): State {
    if id in s.log.issued then s
    else s.(rows := s.rows[id := Row(0, false)], log := Logged(s.log, id, c))
  }

  predicate Live(s: State, id: nat, user: nat, purpose: Purpose) {
    && id in s.rows && !s.rows[id].consumed
    && id in s.log.issued && s.log.issued[id].user == user && s.log.issued[id].purpose == purpose
  }

  /** The newest unconsumed challenge; ids are assigned in creation order. */
  predicate IsLatest(s: State, id: nat, user: nat, purpose: Purpose) {
    Live(s, id, user, purpose) && forall d :: d in s.rows && Live(s, d, user, purpose) ==> d <= id
  }

  function Move(s: State, id: nat, r: Run, pc: Pc): State {
    s.(runs := s.runs[id := r.(pc := pc)])
  }

  function AfterRead(s: State, id: nat, r: Run, challenge: nat): State {
    if !r.pc.Reading? || !IsLatest(s, challenge, r.user, r.purpose) then s
    else Move(s, id, r, if s.now > s.log.issued[challenge].expires then Failed else Burning(challenge))
  }

  function Drawn(log: Log, c: nat, ticket: nat, id: nat): Log {
    log.(drawn := log.drawn[(c, ticket) := id])
  }

  function AfterDraw(log: Log, c: nat, ticket: nat): Pc
    requires c in log.issued
  {
    if ticket > log.issued[c].maxAttempts then OverLimit(c) else Comparing(c, ticket)
  }

  /** The attempt is paid for before the code is looked at, and its number is the ticket. */
  function AfterBurn(s: State, id: nat, r: Run): State {
    if !r.pc.Burning? then s
    else
      var c := r.pc.challenge;
      if c !in s.rows || c !in s.log.issued then Move(s, id, r, Failed)
      else
        var ticket := s.rows[c].attempts + 1;
        Move(s.(rows := s.rows[c := s.rows[c].(attempts := ticket)], log := Drawn(s.log, c, ticket, id)), id, r,
             AfterDraw(s.log, c, ticket))
  }

  function Consumed(rows: map<nat, Row>, c: nat): map<nat, Row> {
    if c in rows then rows[c := rows[c].(consumed := true)] else rows
  }

  function AfterRejectOver(s: State, id: nat, r: Run): State {
    if !r.pc.OverLimit? then s else Move(s.(rows := Consumed(s.rows, r.pc.challenge)), id, r, Failed)
  }

  function AfterComparison(log: Log, c: nat, hash: nat): Pc
    requires c in log.issued
  {
    if log.issued[c].hash == hash then Consuming(c) else Failed
  }

  function Compared(log: Log, c: nat, ticket: nat): Log
    requires c in log.compared && c in log.comparisons
  {
    log.(compared := log.compared[c := log.compared[c] + {ticket}],
         comparisons := log.comparisons[c := log.comparisons[c] + 1])
  }

  function AfterCompare(s: State, id: nat, r: Run): State {
    if !r.pc.Comparing? || r.pc.challenge !in s.log.issued
       || r.pc.challenge !in s.log.compared || r.pc.challenge !in s.log.comparisons then s
    else
      var c := r.pc.challenge;
      Move(s.(log := Compared(s.log, c, r.pc.ticket)), id, r, AfterComparison(s.log, c, r.hash))
  }

  function Granted(log: Log, c: nat, id: nat): Log {
    log.(granted := log.granted[c := id])
  }

  /** Only the request that turns consumed_at from NULL is granted the challenge. */
  function AfterConsume(s: State, id: nat, r: Run): State {
    if !r.pc.Consuming? then s
    else
      var c := r.pc.challenge;
      if c in s.rows && !s.rows[c].consumed
      then Move(s.(rows := Consumed(s.rows, c), log := Granted(s.log, c, id)), id, r, Applying(c))
      else Move(s, id, r, Failed)
  }

  /** Promote the address if the account still claims it; or clear the two-step password. */
  function AfterApply(s: State, id: nat, r: Run): State {
    if !r.pc.Applying? || r.pc.challenge !in s.log.issued then s
    else
      var c := r.pc.challenge;
      if r.purpose == Recover
      then if r.gate.Some? then Move(s.(resets := s.resets + [Reset(r.user, c, r.gate.value)]), id, r, Done(c)) else s
      else if r.user in s.users && s.users[r.user].email == Some(s.log.issued[c].address)
      then
        var user := Verified(s.users[r.user], s.log.issued[c].address, s.now, c);
        Move(s.(users := s.users[r.user := user]), id, r, Done(c))
      else Move(s, id, r, Failed)
  }

  function AfterFound(s: State, start: nat, user: nat, address: string): State {
    if start !in s.found && user in s.users && Recoverable(s.users[user], address)
    then s.(found := s.found[start := Found(user, address, s.users[user].proof.value, s.users[user].changes)])
    else s
  }

  /**
   * CompleteEmailRecovery looks the account up by its current recovery address, and gets no
   * further if it finds none.
   */
  function AfterBeginRecover(s: State, run: nat, user: nat, address: string, hash: nat): State {
    if run in s.runs || user !in s.users || !Recoverable(s.users[user], address) then s
    else
      var gate := Found(user, address, s.users[user].proof.value, s.users[user].changes);
      s.(runs := s.runs[run := Run(user, Recover, hash, Some(gate), Reading)])
  }

  function AfterRun(s: State, a: Action, id: nat): State {
    if id !in s.runs then s
    else
      var r := s.runs[id];
      match a
      case Read(_, challenge) => AfterRead(s, id, r, challenge)
      case Burn(_) => AfterBurn(s, id, r)
      case RejectOver(_) => AfterRejectOver(s, id, r)
      case Compare(_) => AfterCompare(s, id, r)
      case Consume(_) => AfterConsume(s, id, r)
      case Apply(_) => AfterApply(s, id, r)
      case Fail(_) => if r.pc.Done? then s else Move(s, id, r, Failed)
      case _ => s
  }

  predicate ByRun(a: Action) {
    a.Read? || a.Burn? || a.RejectOver? || a.Compare? || a.Consume? || a.Apply? || a.Fail?
  }

  function AfterOther(s: State, a: Action): State {
    match a
    case Tick(elapsed) => s.(now := s.now + elapsed)
    case Join(user) => if user in s.users then s else s.(users := s.users[user := Newcomer])
    case SetPending(user, address) =>
      if user in s.users then s.(users := s.users[user := Pending(s.users[user], address)]) else s
    case Clear(user) => if user in s.users then s.(users := s.users[user := Cleared(s.users[user])]) else s
    case IssueVerify(id, user, address, hash) =>
      Issue(s, id, VerifyChallenge(s.now, user, address, hash))
    case FindRecovery(start, user, address) => AfterFound(s, start, user, address)
    case IssueRecover(id, start, hash) =>
      if start in s.found then Issue(s, id, RecoverChallenge(s.now, s.found[start], hash)) else s
    case Sweep(c) =>
      if c in s.rows && c in s.log.issued && s.log.issued[c].expires < s.now then s.(rows := s.rows - {c}) else s
    case BeginVerify(run, user, hash) =>
      if run in s.runs then s else s.(runs := s.runs[run := Run(user, Verify, hash, None, Reading)])
    case BeginRecover(run, user, address, hash) => AfterBeginRecover(s, run, user, address, hash)
    case _ => s
  }

  function Step(s: State, a: Action): State {
    if ByRun(a) then AfterRun(s, a, a.run) else AfterOther(s, a)
  }

  function RunAll(s: State, actions: seq<Action>): State {
    if actions == [] then s else Step(RunAll(s, actions[..|actions| - 1]), actions[|actions| - 1])
  }

  const Empty: State := State(0, map[], map[], map[], map[], [], Log(map[], map[], map[], map[], map[]))

  // --------------------------------------------------------------- invariant

  /** Challenge v was granted to a request that held its code, and proves this address of this user. */
  predicate Proves(log: Log, v: nat, user: nat, address: string) {
    && v in log.granted && v in log.issued
    && log.issued[v].purpose == Verify && log.issued[v].user == user && log.issued[v].address == address
  }

  function Claimed(pc: Pc): Option<nat> {
    match pc
    case Reading => None
    case Burning(c) => Some(c)
    case OverLimit(c) => Some(c)
    case Comparing(c, _) => Some(c)
    case Consuming(c) => Some(c)
    case Applying(c) => Some(c)
    case Done(c) => Some(c)
    case Failed => None
  }

  predicate RunInv(log: Log, id: nat, r: Run) {
    && (r.purpose == Recover ==> r.gate.Some? && r.gate.value.user == r.user && FoundInv(log, r.gate.value))
    && (Claimed(r.pc).Some? ==>
          var c := Claimed(r.pc).value;
          c in log.issued && log.issued[c].user == r.user && log.issued[c].purpose == r.purpose)
    && (r.pc.Comparing? ==>
          && 1 <= r.pc.ticket <= log.issued[r.pc.challenge].maxAttempts
          && (r.pc.challenge, r.pc.ticket) in log.drawn && log.drawn[(r.pc.challenge, r.pc.ticket)] == id
          && r.pc.challenge in log.compared && r.pc.ticket !in log.compared[r.pc.challenge])
    && (r.pc.Consuming? || r.pc.Applying? || r.pc.Done? ==> log.issued[Claimed(r.pc).value].hash == r.hash)
    && (r.pc.Applying? || r.pc.Done? ==> Claimed(r.pc).value in log.granted && log.granted[Claimed(r.pc).value] == id)
  }

  ghost predicate ChallengeInv(log: Log, c: nat, challenge: Challenge) {
    && challenge.maxAttempts == EMAIL_CODE_ATTEMPTS
    && c in log.compared && c in log.comparisons && log.comparisons[c] == |log.compared[c]|
    && (forall t :: t in log.compared[c] ==> 1 <= t <= challenge.maxAttempts && (c, t) in log.drawn)
    && (challenge.purpose == Recover ==> FromLookup(log, challenge))
  }

  /** The code was sent to an address then proved to be the account's. */
  predicate FromLookup(log: Log, c: Challenge) {
    && c.origin.Some? && FoundInv(log, c.origin.value)
    && c.origin.value.user == c.user && c.origin.value.address == c.address
  }

  ghost predicate RowInv(log: Log, c: nat, row: Row) {
    && c in log.issued
    && (forall t :: (c, t) in log.drawn ==> t <= row.attempts)
    && (c in log.granted ==> row.consumed)
  }

  predicate UserInv(log: Log, id: nat, u: User) {
    u.recovery.Some? ==>
      u.email == u.recovery && u.verifiedAt.Some? && u.proof.Some? && Proves(log, u.proof.value, id, u.recovery.value)
  }

  predicate FoundInv(log: Log, f: Found) {
    Proves(log, f.proof, f.user, f.address)
  }

  predicate ResetInv(log: Log, e: Reset) {
    e.challenge in log.granted && e.challenge in log.issued
    && log.issued[e.challenge].purpose == Recover && log.issued[e.challenge].user == e.user
    && FoundInv(log, e.gate) && e.gate.user == e.user
  }

  ghost predicate LogInv(log: Log) {
    && (forall c :: c in log.issued ==> ChallengeInv(log, c, log.issued[c]))
    && (forall k :: k in log.drawn ==> k.0 in log.issued)
  }

  ghost predicate RunsInv(log: Log, runs: map<nat, Run>) {
    forall id :: id in runs ==> RunInv(log, id, runs[id])
  }

  ghost predicate RowsInv(log: Log, rows: map<nat, Row>) {
    forall c :: c in rows ==> RowInv(log, c, rows[c])
  }

  ghost predicate PeopleInv(log: Log, users: map<nat, User>, found: map<nat, Found>, resets: seq<Reset>) {
    && (forall u :: u in users ==> UserInv(log, u, users[u]))
    && (forall f :: f in found ==> FoundInv(log, found[f]))
    && (forall i :: 0 <= i < |resets| ==> ResetInv(log, resets[i]))
  }

  /** Every challenge granted was granted to a request that presented its code. */
  ghost predicate GrantsInv(granted: map<nat, nat>, issued: map<nat, Challenge>, runs: map<nat, Run>) {
    forall c :: c in granted ==>
      && c in issued && granted[c] in runs
      && runs[granted[c]].hash == issued[c].hash && runs[granted[c]].user == issued[c].user
  }

  ghost predicate Inv(s: State) {
    && LogInv(s.log) && RunsInv(s.log, s.runs) && GrantsInv(s.log.granted, s.log.issued, s.runs)
    && RowsInv(s.log, s.rows) && PeopleInv(s.log, s.users, s.found, s.resets)
  }

  /** What was issued and granted stays so. */
  predicate Grows(log: Log, log': Log) {
    && (forall c :: c in log.issued ==> c in log'.issued && log'.issued[c] == log.issued[c])
    && (forall c :: c in log.granted ==> c in log'.granted)
  }

  lemma GrowthKeepsPeople(log: Log, log': Log, users: map<nat, User>, found: map<nat, Found>, resets: seq<Reset>)
    requires PeopleInv(log, users, found, resets) && Grows(log, log')
    ensures PeopleInv(log', users, found, resets)
  {
    forall u | u in users ensures UserInv(log', u, users[u]) {
      assert UserInv(log, u, users[u]);
    }
    forall f | f in found ensures FoundInv(log', found[f]) {
      assert FoundInv(log, found[f]);
    }
    forall i | 0 <= i < |resets| ensures ResetInv(log', resets[i]) {
      assert ResetInv(log, resets[i]);
    }
  }

  lemma RunMoves(log: Log, runs: map<nat, Run>, id: nat, r: Run)
    requires RunInv(log, id, r) && forall i :: i in runs && i != id ==> RunInv(log, i, runs[i])
    requires GrantsInv(log.granted, log.issued, runs)
    requires id in runs ==> runs[id].hash == r.hash && runs[id].user == r.user
    ensures RunsInv(log, runs[id := r]) && GrantsInv(log.granted, log.issued, runs[id := r])
  {
  }

  // Issuing a challenge.

  lemma IssueKeepsLog(log: Log, log': Log, id: nat, c: Challenge)
    requires LogInv(log) && id !in log.issued && c.maxAttempts == EMAIL_CODE_ATTEMPTS
    requires c.purpose == Recover ==> FromLookup(log, c)
    requires log' == Logged(log, id, c)
    ensures LogInv(log')
  {
    forall d | d in log'.issued ensures ChallengeInv(log', d, log'.issued[d]) {
      assert d != id ==> ChallengeInv(log, d, log.issued[d]);
    }
  }

  lemma IssueKeepsRuns(log: Log, log': Log, runs: map<nat, Run>, id: nat, c: Challenge)
    requires RunsInv(log, runs) && GrantsInv(log.granted, log.issued, runs) && id !in log.issued
    requires log' == Logged(log, id, c)
    ensures RunsInv(log', runs) && GrantsInv(log'.granted, log'.issued, runs)
  {
    forall i | i in runs ensures RunInv(log', i, runs[i]) {
      assert RunInv(log, i, runs[i]);
    }
  }

  lemma IssueKeepsRows(s: State, id: nat, c: Challenge)
    requires LogInv(s.log) && RowsInv(s.log, s.rows) && id !in s.log.issued
    requires GrantsInv(s.log.granted, s.log.issued, s.runs)
    ensures RowsInv(Issue(s, id, c).log, Issue(s, id, c).rows)
  {
    var t := Issue(s, id, c);
    forall d | d in t.rows ensures RowInv(t.log, d, t.rows[d]) {
      assert d != id ==> RowInv(s.log, d, s.rows[d]);
    }
  }

  lemma IssueKeepsInv(s: State, id: nat, c: Challenge)
    requires Inv(s) && c.maxAttempts == EMAIL_CODE_ATTEMPTS
    requires c.purpose == Recover ==> FromLookup(s.log, c)
    ensures Inv(Issue(s, id, c))
  {
    if id !in s.log.issued {
      var t := Issue(s, id, c);
      IssueKeepsLog(s.log, t.log, id, c);
      GrowthKeepsPeople(s.log, t.log, s.users, s.found, s.resets);
      IssueKeepsRuns(s.log, t.log, s.runs, id, c);
      IssueKeepsRows(s, id, c);
    }
  }

  // Drawing a ticket.

  lemma DrawKeepsLog(log: Log, c: nat, ticket: nat, id: nat)
    requires LogInv(log) && c in log.issued
    ensures LogInv(Drawn(log, c, ticket, id))
  {
    var log' := Drawn(log, c, ticket, id);
    forall d | d in log'.issued ensures ChallengeInv(log', d, log'.issued[d]) {
      assert ChallengeInv(log, d, log.issued[d]);
    }
  }

  lemma DrawKeepsRuns(log: Log, runs: map<nat, Run>, c: nat, ticket: nat, id: nat)
    requires RunsInv(log, runs) && (c, ticket) !in log.drawn
    ensures RunsInv(Drawn(log, c, ticket, id), runs)
  {
    forall i | i in runs ensures RunInv(Drawn(log, c, ticket, id), i, runs[i]) {
      assert RunInv(log, i, runs[i]);
    }
  }

  lemma DrawKeepsRows(log: Log, rows: map<nat, Row>, c: nat, id: nat)
    requires RowsInv(log, rows) && c in rows
    ensures var ticket := rows[c].attempts + 1;
            && (c, ticket) !in log.drawn
            && RowsInv(Drawn(log, c, ticket, id), rows[c := rows[c].(attempts := ticket)])
  {
    var ticket := rows[c].attempts + 1;
    var log', rows' := Drawn(log, c, ticket, id), rows[c := rows[c].(attempts := ticket)];
    assert RowInv(log, c, rows[c]);
    forall d | d in rows' ensures RowInv(log', d, rows'[d]) {
      assert RowInv(log, d, rows[d]);
    }
  }

  lemma DrawnRun(log: Log, id: nat, r: Run, ticket: nat)
    requires LogInv(log) && RunInv(log, id, r) && r.pc.Burning? && ticket >= 1 && (r.pc.challenge, ticket) !in log.drawn
    ensures var c := r.pc.challenge; RunInv(Drawn(log, c, ticket, id), id, r.(pc := AfterDraw(log, c, ticket)))
  {
    assert ChallengeInv(log, r.pc.challenge, log.issued[r.pc.challenge]);
  }

  lemma BurnKeepsInv(s: State, id: nat)
    requires Inv(s) && id in s.runs
    ensures Inv(AfterBurn(s, id, s.runs[id]))
  {
    var r := s.runs[id];
    assert RunInv(s.log, id, r);
    if r.pc.Burning? && r.pc.challenge in s.rows {
      var c := r.pc.challenge;
      var ticket := s.rows[c].attempts + 1;
      var log' := Drawn(s.log, c, ticket, id);
      DrawKeepsLog(s.log, c, ticket, id);
      DrawKeepsRows(s.log, s.rows, c, id);
      DrawKeepsRuns(s.log, s.runs, c, ticket, id);
      GrowthKeepsPeople(s.log, log', s.users, s.found, s.resets);
      DrawnRun(s.log, id, r, ticket);
      RunMoves(log', s.runs, id, r.(pc := AfterDraw(s.log, c, ticket)));
    } else if r.pc.Burning? {
      RunMoves(s.log, s.runs, id, r.(pc := Failed));
    }
  }

  // Comparing with it.

  lemma CompareKeepsLog(log: Log, c: nat, ticket: nat)
    requires LogInv(log) && c in log.issued && c in log.compared && c in log.comparisons
    requires ticket !in log.compared[c] && 1 <= ticket <= log.issued[c].maxAttempts && (c, ticket) in log.drawn
    ensures LogInv(Compared(log, c, ticket))
  {
    var log' := Compared(log, c, ticket);
    forall d | d in log'.issued ensures ChallengeInv(log', d, log'.issued[d]) {
      assert ChallengeInv(log, d, log.issued[d]);
    }
  }

  lemma CompareKeepsRuns(log: Log, runs: map<nat, Run>, c: nat, ticket: nat, id: nat)
    requires RunsInv(log, runs) && c in log.compared && c in log.comparisons
    requires (c, ticket) in log.drawn && log.drawn[(c, ticket)] == id
    ensures forall i :: i in runs && i != id ==> RunInv(Compared(log, c, ticket), i, runs[i])
  {
    forall i | i in runs && i != id ensures RunInv(Compared(log, c, ticket), i, runs[i]) {
      assert RunInv(log, i, runs[i]);
    }
  }

  lemma CompareKeepsRows(log: Log, rows: map<nat, Row>, c: nat, ticket: nat)
    requires RowsInv(log, rows) && c in log.compared && c in log.comparisons
    ensures RowsInv(Compared(log, c, ticket), rows)
  {
    forall d | d in rows ensures RowInv(Compared(log, c, ticket), d, rows[d]) {
      assert RowInv(log, d, rows[d]);
    }
  }

  lemma ComparingHasRecord(log: Log, c: nat)
    requires LogInv(log) && c in log.issued
    ensures c in log.compared && c in log.comparisons
  {
    assert ChallengeInv(log, c, log.issued[c]);
  }

  lemma ComparedRun(log: Log, id: nat, r: Run)
    requires RunInv(log, id, r) && r.pc.Comparing? && r.pc.challenge in log.comparisons
    ensures var c := r.pc.challenge;
            RunInv(Compared(log, c, r.pc.ticket), id, r.(pc := AfterComparison(log, c, r.hash)))
  {
  }

  lemma CompareKeepsInv(s: State, id: nat)
    requires Inv(s) && id in s.runs
    ensures Inv(AfterCompare(s, id, s.runs[id]))
  {
    var r := s.runs[id];
    assert RunInv(s.log, id, r);
    if r.pc.Comparing? {
      var c := r.pc.challenge;
      ComparingHasRecord(s.log, c);
      var log' := Compared(s.log, c, r.pc.ticket);
      CompareKeepsLog(s.log, c, r.pc.ticket);
      CompareKeepsRows(s.log, s.rows, c, r.pc.ticket);
      CompareKeepsRuns(s.log, s.runs, c, r.pc.ticket, id);
      GrowthKeepsPeople(s.log, log', s.users, s.found, s.resets);
      ComparedRun(s.log, id, r);
      RunMoves(log', s.runs, id, r.(pc := AfterComparison(s.log, c, r.hash)));
    }
  }

  // Consuming the challenge.

  lemma GrantKeepsLog(log: Log, c: nat, id: nat)
    requires LogInv(log) && c in log.issued
    ensures LogInv(Granted(log, c, id))
  {
    var log' := Granted(log, c, id);
    forall d | d in log'.issued ensures ChallengeInv(log', d, log'.issued[d]) {
      assert ChallengeInv(log, d, log.issued[d]);
    }
  }

  lemma GrantKeepsRuns(log: Log, runs: map<nat, Run>, c: nat, id: nat)
    requires RunsInv(log, runs) && c !in log.granted
    ensures RunsInv(Granted(log, c, id), runs)
  {
    forall i | i in runs ensures RunInv(Granted(log, c, id), i, runs[i]) {
      assert RunInv(log, i, runs[i]);
    }
  }

  lemma GrantKeepsRows(log: Log, rows: map<nat, Row>, c: nat, id: nat)
    requires RowsInv(log, rows)
    ensures RowsInv(Granted(log, c, id), Consumed(rows, c)) && RowsInv(log, Consumed(rows, c))
  {
    forall d | d in rows
      ensures RowInv(Granted(log, c, id), d, Consumed(rows, c)[d]) && RowInv(log, d, Consumed(rows, c)[d])
    {
      assert RowInv(log, d, rows[d]);
    }
  }

  lemma GrantedRun(log: Log, runs: map<nat, Run>, id: nat)
    requires id in runs && runs[id].pc.Consuming? && RunInv(log, id, runs[id])
    requires GrantsInv(log.granted, log.issued, runs)
    ensures var c := runs[id].pc.challenge;
            && RunInv(Granted(log, c, id), id, runs[id].(pc := Applying(c)))
            && GrantsInv(Granted(log, c, id).granted, log.issued, runs)
  {
  }

  lemma ConsumeKeepsInv(s: State, id: nat)
    requires Inv(s) && id in s.runs
    ensures Inv(AfterConsume(s, id, s.runs[id]))
  {
    var r := s.runs[id];
    assert RunInv(s.log, id, r);
    if r.pc.Consuming? {
      var c := r.pc.challenge;
      if c in s.rows && !s.rows[c].consumed {
        assert RowInv(s.log, c, s.rows[c]);
        GrantKeepsLog(s.log, c, id);
        GrantKeepsRuns(s.log, s.runs, c, id);
        GrantedRun(s.log, s.runs, id);
        GrantKeepsRows(s.log, s.rows, c, id);
        GrowthKeepsPeople(s.log, Granted(s.log, c, id), s.users, s.found, s.resets);
        RunMoves(Granted(s.log, c, id), s.runs, id, r.(pc := Applying(c)));
      } else {
        RunMoves(s.log, s.runs, id, r.(pc := Failed));
      }
    }
  }

  // Using what was granted.

  lemma UserMoves(log: Log, users: map<nat, User>, found: map<nat, Found>, resets: seq<Reset>, id: nat, u: User)
    requires PeopleInv(log, users, found, resets) && UserInv(log, id, u)
    ensures PeopleInv(log, users[id := u], found, resets)
  {
  }

  lemma ResetKeepsPeople(log: Log, users: map<nat, User>, found: map<nat, Found>, resets: seq<Reset>, e: Reset)
    requires PeopleInv(log, users, found, resets) && ResetInv(log, e)
    ensures PeopleInv(log, users, found, resets + [e])
  {
  }

  lemma ApplyKeepsInv(s: State, id: nat)
    requires Inv(s) && id in s.runs
    ensures Inv(AfterApply(s, id, s.runs[id]))
  {
    var r := s.runs[id];
    assert RunInv(s.log, id, r);
    if r.pc.Applying? {
      var c := r.pc.challenge;
      RunMoves(s.log, s.runs, id, r.(pc := Done(c)));
      RunMoves(s.log, s.runs, id, r.(pc := Failed));
      if r.purpose == Recover {
        ResetKeepsPeople(s.log, s.users, s.found, s.resets, Reset(r.user, c, r.gate.value));
      } else if r.user in s.users && s.users[r.user].email == Some(s.log.issued[c].address) {
        var user := Verified(s.users[r.user], s.log.issued[c].address, s.now, c);
        UserMoves(s.log, s.users, s.found, s.resets, r.user, user);
      }
    }
  }

  lemma ReadKeepsInv(s: State, id: nat, challenge: nat)
    requires Inv(s) && id in s.runs
    ensures Inv(AfterRead(s, id, s.runs[id], challenge))
  {
    var r := s.runs[id];
    if r.pc.Reading? && IsLatest(s, challenge, r.user, r.purpose) {
      RunMoves(s.log, s.runs, id, r.(pc := Burning(challenge)));
      RunMoves(s.log, s.runs, id, r.(pc := Failed));
    }
  }

  lemma RejectKeepsInv(s: State, id: nat)
    requires Inv(s) && id in s.runs
    ensures Inv(AfterRejectOver(s, id, s.runs[id]))
  {
    var r := s.runs[id];
    if r.pc.OverLimit? {
      GrantKeepsRows(s.log, s.rows, r.pc.challenge, id);
      RunMoves(s.log, s.runs, id, r.(pc := Failed));
    }
  }

  lemma FailKeepsInv(s: State, id: nat)
    requires Inv(s) && id in s.runs
    ensures Inv(AfterRun(s, Fail(id), id))
  {
    RunMoves(s.log, s.runs, id, s.runs[id].(pc := Failed));
  }

  lemma DrawingKeepsInv(s: State, a: Action, id: nat)
    requires Inv(s) && id in s.runs && (a.Read? || a.Burn? || a.RejectOver?)
    ensures Inv(AfterRun(s, a, id))
  {
    match a
    case Read(_, challenge) => ReadKeepsInv(s, id, challenge);
    case Burn(_) => BurnKeepsInv(s, id);
    case RejectOver(_) => RejectKeepsInv(s, id);
  }

  lemma RedeemingKeepsInv(s: State, a: Action, id: nat)
    requires Inv(s) && id in s.runs && (a.Compare? || a.Consume? || a.Apply? || a.Fail?)
    ensures Inv(AfterRun(s, a, id))
  {
    match a
    case Compare(_) => CompareKeepsInv(s, id);
    case Consume(_) => ConsumeKeepsInv(s, id);
    case Apply(_) => ApplyKeepsInv(s, id);
    case Fail(_) => FailKeepsInv(s, id);
  }

  lemma IssuesKeepInv(s: State, a: Action)
    requires Inv(s) && (a.IssueVerify? || a.IssueRecover?)
    ensures Inv(AfterOther(s, a))
  {
    if a.IssueVerify? {
      IssueKeepsInv(s, a.challenge, VerifyChallenge(s.now, a.user, a.address, a.hash));
    } else if a.start in s.found {
      assert FoundInv(s.log, s.found[a.start]);
      IssueKeepsInv(s, a.challenge, RecoverChallenge(s.now, s.found[a.start], a.hash));
    }
  }

  lemma AccountsKeepInv(s: State, a: Action)
    requires Inv(s) && (a.Join? || a.SetPending? || a.Clear? || a.FindRecovery?)
    ensures Inv(AfterOther(s, a))
  {
    if a.FindRecovery? {
      assert a.user in s.users ==> UserInv(s.log, a.user, s.users[a.user]);
    } else {
      var u := if a.user in s.users then s.users[a.user] else Newcomer;
      var moved := if a.SetPending? then Pending(u, a.address) else if a.Clear? then Cleared(u) else Newcomer;
      UserMoves(s.log, s.users, s.found, s.resets, a.user, moved);
    }
  }

  lemma RestKeepsInv(s: State, a: Action)
    requires Inv(s) && (a.Tick? || a.Sweep? || a.BeginVerify?)
    ensures Inv(AfterOther(s, a))
  {
  }

  lemma BeginRecoverKeepsInv(s: State, run: nat, user: nat, address: string, hash: nat)
    requires Inv(s)
    ensures Inv(AfterBeginRecover(s, run, user, address, hash))
  {
    if run !in s.runs && user in s.users && Recoverable(s.users[user], address) {
      assert UserInv(s.log, user, s.users[user]);
      var gate := Found(user, address, s.users[user].proof.value, s.users[user].changes);
      RunMoves(s.log, s.runs, run, Run(user, Recover, hash, Some(gate), Reading));
      assert forall c :: c in s.log.granted ==> s.log.granted[c] != run;
    }
  }

  lemma StepKeepsInv(s: State, a: Action)
    requires Inv(s)
    ensures Inv(Step(s, a))
  {
    if a.Read? || a.Burn? || a.RejectOver? {
      if a.run in s.runs {
        DrawingKeepsInv(s, a, a.run);
      }
    } else if ByRun(a) {
      if a.run in s.runs {
        RedeemingKeepsInv(s, a, a.run);
      }
    } else if a.IssueVerify? || a.IssueRecover? {
      IssuesKeepInv(s, a);
    } else if a.Join? || a.SetPending? || a.Clear? || a.FindRecovery? {
      AccountsKeepInv(s, a);
    } else if a.BeginRecover? {
      BeginRecoverKeepsInv(s, a.run, a.user, a.address, a.hash);
    } else {
      RestKeepsInv(s, a);
    }
  }

  lemma {:induction false} RunKeepsInv(s: State, actions: seq<Action>)
    requires Inv(s)
    ensures Inv(RunAll(s, actions))
  {
    if actions != [] {
      RunKeepsInv(s, actions[..|actions| - 1]);
      StepKeepsInv(RunAll(s, actions[..|actions| - 1]), actions[|actions| - 1]);
    }
  }

  // ---------------------------------------------------------------- theorems

  /**
   * Burning before comparing bounds the guesses: in every interleaving of any number of
   * requests, at most five codes are ever compared with a challenge.
   */
  lemma AttemptsAreBounded(actions: seq<Action>, c: nat)
    ensures var log := RunAll(Empty, actions).log;
            c in log.issued ==> c in log.comparisons && log.comparisons[c] <= EMAIL_CODE_ATTEMPTS
  {
    var log := RunAll(Empty, actions).log;
    RunKeepsInv(Empty, actions);
    if c in log.issued {
      assert ChallengeInv(log, c, log.issued[c]);
      SubsetSize(log.compared[c], UpTo(EMAIL_CODE_ATTEMPTS));
    }
  }

  lemma OnlyConsumeGrants(s: State, a: Action, id: nat)
    requires id in s.runs && !a.Consume?
    ensures AfterRun(s, a, id).log.granted == s.log.granted
  {
    match a
    case Read(_, _) =>
    case Burn(_) =>
    case RejectOver(_) =>
    case Compare(_) =>
    case Apply(_) =>
    case Fail(_) =>
    case _ =>
  }

  lemma ConsumeKeepsGrants(s: State, id: nat, c: nat)
    requires (c in s.rows ==> s.rows[c].consumed) && c in s.log.granted && id in s.runs
    ensures var t := AfterConsume(s, id, s.runs[id]); c in t.log.granted && t.log.granted[c] == s.log.granted[c]
  {
  }

  lemma OnlyRunsGrant(s: State, a: Action)
    ensures AfterOther(s, a).log.granted == s.log.granted
  {
  }

  lemma RunKeepsGrants(s: State, a: Action, c: nat)
    requires (c in s.rows ==> s.rows[c].consumed) && c in s.log.granted && ByRun(a) && a.run in s.runs
    ensures var t := AfterRun(s, a, a.run); c in t.log.granted && t.log.granted[c] == s.log.granted[c]
  {
    if a.Consume? {
      ConsumeKeepsGrants(s, a.run, c);
    } else {
      OnlyConsumeGrants(s, a, a.run);
    }
  }

  lemma GrantedIsConsumed(s: State, c: nat)
    requires Inv(s) && c in s.log.granted
    ensures c in s.rows ==> s.rows[c].consumed
  {
    assert c in s.rows ==> RowInv(s.log, c, s.rows[c]);
  }

  lemma StepKeepsGrants(s: State, a: Action, c: nat)
    requires (c in s.rows ==> s.rows[c].consumed) && c in s.log.granted
    ensures var t := Step(s, a); c in t.log.granted && t.log.granted[c] == s.log.granted[c]
  {
    if !ByRun(a) {
      OnlyRunsGrant(s, a);
    } else if a.run in s.runs {
      RunKeepsGrants(s, a, c);
    }
  }

  /** A challenge is granted once: no later request is ever granted it again. */
  lemma {:induction false} GrantsAreFinal(s: State, actions: seq<Action>, c: nat)
    requires Inv(s) && c in s.log.granted
    ensures var t := RunAll(s, actions); c in t.log.granted && t.log.granted[c] == s.log.granted[c]
  {
    if actions != [] {
      var earlier := actions[..|actions| - 1];
      GrantsAreFinal(s, earlier, c);
      RunKeepsInv(s, earlier);
      GrantedIsConsumed(RunAll(s, earlier), c);
      StepKeepsGrants(RunAll(s, earlier), actions[|actions| - 1], c);
    }
  }

  /**
   * At most one verification of a challenge succeeds, however many race for it; it presented
   * the challenge's own code, and its grant leaves the row consumed for as long as it exists.
   */
  lemma OneVerificationSucceeds(actions: seq<Action>, i: nat, j: nat)
    ensures var s := RunAll(Empty, actions);
            i in s.runs && (s.runs[i].pc.Applying? || s.runs[i].pc.Done?) ==>
              var c := s.runs[i].pc.challenge;
              && c in s.log.issued && s.log.issued[c].hash == s.runs[i].hash
              && s.log.issued[c].user == s.runs[i].user && s.log.issued[c].purpose == s.runs[i].purpose
              && (c in s.rows ==> s.rows[c].consumed)
              && (j in s.runs && (s.runs[j].pc.Applying? || s.runs[j].pc.Done?) && s.runs[j].pc.challenge == c ==>
                    i == j)
  {
    var s := RunAll(Empty, actions);
    RunKeepsInv(Empty, actions);
    if i in s.runs && (s.runs[i].pc.Applying? || s.runs[i].pc.Done?) {
      assert RunInv(s.log, i, s.runs[i]);
      assert j in s.runs ==> RunInv(s.log, j, s.runs[j]);
      assert s.runs[i].pc.challenge in s.rows ==> RowInv(s.log, s.runs[i].pc.challenge, s.rows[s.runs[i].pc.challenge]);
    }
  }

  /** A code sent to this address for this user came back: some request presented it and was granted the challenge. */
  predicate Proved(s: State, user: nat, address: string) {
    exists v :: v in s.log.granted && Proves(s.log, v, user, address) && Presented(s, v)
  }

  predicate Presented(s: State, v: nat) {
    && v in s.log.granted && v in s.log.issued
    && s.log.granted[v] in s.runs && s.runs[s.log.granted[v]].hash == s.log.issued[v].hash
  }

  /**
   * In every reachable state a recovery address is the account's current address, carries its
   * verification time, and was proved by a verify code for that same user and address, even
   * when the address changed between the code being consumed and the address confirmed.
   */
  lemma RecoveryAddressIsProved(actions: seq<Action>, user: nat)
    ensures var s := RunAll(Empty, actions);
            user in s.users && s.users[user].recovery.Some? ==>
              && s.users[user].email == s.users[user].recovery && s.users[user].verifiedAt.Some?
              && Proved(s, user, s.users[user].recovery.value)
  {
    var s := RunAll(Empty, actions);
    RunKeepsInv(Empty, actions);
    if user in s.users && s.users[user].recovery.Some? {
      assert UserInv(s.log, user, s.users[user]);
      assert Presented(s, s.users[user].proof.value);
    }
  }

  /**
   * Every two-step reset was earned by a code sent to an address of that user that had itself
   * been proved, on a request that named another such address, or the same.
   */
  lemma ResetsAreProved(actions: seq<Action>, i: nat)
    ensures var s := RunAll(Empty, actions);
            i < |s.resets| ==>
              var c := s.resets[i].challenge;
              && Presented(s, c) && s.log.issued[c].purpose == Recover && s.log.issued[c].user == s.resets[i].user
              && Proved(s, s.resets[i].user, s.log.issued[c].address)
              && Proved(s, s.resets[i].user, s.resets[i].gate.address)
  {
    var s := RunAll(Empty, actions);
    RunKeepsInv(Empty, actions);
    if i < |s.resets| {
      var c := s.resets[i].challenge;
      assert ResetInv(s.log, s.resets[i]);
      assert ChallengeInv(s.log, c, s.log.issued[c]);
      assert Presented(s, s.log.issued[c].origin.value.proof);
      assert Presented(s, s.resets[i].gate.proof);
    }
  }

  // ------------------------------------------------- whose address it still is

  /** While an account's address has not changed since a lookup, it is still the recovery address found. */
  predicate Fits(users: map<nat, User>, f: Found) {
    && f.user in users && f.changes <= users[f.user].changes
    && (f.changes == users[f.user].changes ==> users[f.user].recovery == Some(f.address))
  }

  predicate Whole(u: User) {
    (u.recovery.Some? <==> u.verifiedAt.Some?) && (u.recovery.Some? <==> u.proof.Some?)
  }

  ghost predicate Since(users: map<nat, User>, found: map<nat, Found>, issued: map<nat, Challenge>,
      runs: map<nat, Run>) {
    && (forall u :: u in users ==> Whole(users[u]))
    && (forall f :: f in found ==> Fits(users, found[f]))
    && (forall c :: c in issued && issued[c].origin.Some? ==> Fits(users, issued[c].origin.value))
    && (forall r :: r in runs && runs[r].gate.Some? ==> Fits(users, runs[r].gate.value))
  }

  lemma UserKeepsSince(s: State, id: nat, u: User)
    requires Since(s.users, s.found, s.log.issued, s.runs) && Whole(u)
    requires id in s.users ==> u.changes >= s.users[id].changes
    requires id in s.users && u.changes == s.users[id].changes && s.users[id].recovery.Some? ==>
               u.recovery == s.users[id].recovery
    ensures Since(s.users[id := u], s.found, s.log.issued, s.runs)
  {
  }

  lemma RunMoveKeepsSince(users: map<nat, User>, found: map<nat, Found>, issued: map<nat, Challenge>,
      runs: map<nat, Run>, id: nat, pc: Pc)
    requires Since(users, found, issued, runs) && id in runs
    ensures Since(users, found, issued, runs[id := runs[id].(pc := pc)])
  {
  }

  lemma ConfirmKeepsSince(s: State, id: nat)
    requires Inv(s) && Since(s.users, s.found, s.log.issued, s.runs) && id in s.runs
    ensures var t := AfterApply(s, id, s.runs[id]); Since(t.users, t.found, t.log.issued, t.runs)
  {
    var r := s.runs[id];
    if r.pc.Applying? {
      RunMoveKeepsSince(s.users, s.found, s.log.issued, s.runs, id, Failed);
      RunMoveKeepsSince(s.users, s.found, s.log.issued, s.runs, id, Done(r.pc.challenge));
    }
    if r.pc.Applying? && r.purpose == Verify && r.pc.challenge in s.log.issued && r.user in s.users {
      var c := r.pc.challenge;
      assert UserInv(s.log, r.user, s.users[r.user]);
      if s.users[r.user].email == Some(s.log.issued[c].address) {
        var u := Verified(s.users[r.user], s.log.issued[c].address, s.now, c);
        UserKeepsSince(s, r.user, u);
        RunMoveKeepsSince(s.users[r.user := u], s.found, s.log.issued, s.runs, id, Done(c));
      }
    }
  }

  lemma OnlyApplyTouchesUsers(s: State, a: Action, id: nat)
    requires id in s.runs && !a.Apply?
    ensures var t := AfterRun(s, a, id);
            && t.users == s.users && t.found == s.found && t.log.issued == s.log.issued
            && t.runs == s.runs[id := s.runs[id].(pc := t.runs[id].pc)]
  {
    assert s.runs[id := s.runs[id]] == s.runs;
    match a
    case Read(_, _) =>
    case Burn(_) =>
    case RejectOver(_) =>
    case Compare(_) =>
    case Consume(_) =>
    case Fail(_) =>
    case _ =>
  }

  lemma RunKeepsSince(s: State, a: Action, id: nat)
    requires Inv(s) && Since(s.users, s.found, s.log.issued, s.runs) && id in s.runs
    ensures var t := AfterRun(s, a, id); Since(t.users, t.found, t.log.issued, t.runs)
  {
    if a.Apply? {
      ConfirmKeepsSince(s, id);
    } else {
      OnlyApplyTouchesUsers(s, a, id);
      RunMoveKeepsSince(s.users, s.found, s.log.issued, s.runs, id, AfterRun(s, a, id).runs[id].pc);
    }
  }

  lemma AccountsKeepSince(s: State, a: Action)
    requires Since(s.users, s.found, s.log.issued, s.runs) && (a.Join? || a.SetPending? || a.Clear?)
    ensures var t := AfterOther(s, a); Since(t.users, t.found, t.log.issued, t.runs)
  {
    if a.user in s.users {
      var u := if a.SetPending? then Pending(s.users[a.user], a.address) else Cleared(s.users[a.user]);
      UserKeepsSince(s, a.user, u);
    } else {
      UserKeepsSince(s, a.user, Newcomer);
    }
  }

  lemma CodesKeepSince(s: State, a: Action)
    requires Since(s.users, s.found, s.log.issued, s.runs)
    requires a.IssueVerify? || a.FindRecovery? || a.IssueRecover?
    ensures var t := AfterOther(s, a); Since(t.users, t.found, t.log.issued, t.runs)
  {
  }

  lemma BeginningsKeepSince(s: State, a: Action)
    requires Since(s.users, s.found, s.log.issued, s.runs)
    requires a.BeginVerify? || a.BeginRecover? || a.Tick? || a.Sweep?
    ensures var t := AfterOther(s, a); Since(t.users, t.found, t.log.issued, t.runs)
  {
  }

  lemma StepKeepsSince(s: State, a: Action)
    requires Inv(s) && Since(s.users, s.found, s.log.issued, s.runs)
    ensures var t := Step(s, a); Since(t.users, t.found, t.log.issued, t.runs)
  {
    if ByRun(a) {
      if a.run in s.runs {
        RunKeepsSince(s, a, a.run);
      }
    } else if a.Join? || a.SetPending? || a.Clear? {
      AccountsKeepSince(s, a);
    } else if a.IssueVerify? || a.FindRecovery? || a.IssueRecover? {
      CodesKeepSince(s, a);
    } else {
      BeginningsKeepSince(s, a);
    }
  }

  lemma {:induction false} RunsKeepSince(actions: seq<Action>)
    ensures var s := RunAll(Empty, actions); Inv(s) && Since(s.users, s.found, s.log.issued, s.runs)
  {
    if actions != [] {
      RunsKeepSince(actions[..|actions| - 1]);
      StepKeepsInv(RunAll(Empty, actions[..|actions| - 1]), actions[|actions| - 1]);
      StepKeepsSince(RunAll(Empty, actions[..|actions| - 1]), actions[|actions| - 1]);
    }
  }

  /**
   * When a reset still speaks for the account. A recovery about to reset holds a code sent to
   * the account's current recovery address exactly when the account claims that address and has
   * verified it, the check that confirming an address makes and resetting does not; and that is
   * so exactly when no address was set or cleared since the code's lookup, or the same address
   * was proved again after the last change.
   */
  lemma ResetAddressIsCurrent(actions: seq<Action>, id: nat)
    ensures var s := RunAll(Empty, actions);
            id in s.runs && s.runs[id].pc.Applying? && s.runs[id].purpose == Recover ==>
              var r := s.runs[id];
              && r.pc.challenge in s.log.issued && s.log.issued[r.pc.challenge].origin.Some? && r.user in s.users
              && var c, u := s.log.issued[r.pc.challenge], s.users[r.user];
                 && (u.recovery == Some(c.address) <==> u.email == Some(c.address) && u.verifiedAt.Some?)
                 && (u.recovery == Some(c.address) <==>
                     u.changes == c.origin.value.changes
                     || (u.changes > c.origin.value.changes && u.proof.Some?
                         && Proves(s.log, u.proof.value, r.user, c.address)))
  {
    var s := RunAll(Empty, actions);
    RunsKeepSince(actions);
    if id in s.runs && s.runs[id].pc.Applying? && s.runs[id].purpose == Recover {
      var r := s.runs[id];
      assert RunInv(s.log, id, r);
      assert ChallengeInv(s.log, r.pc.challenge, s.log.issued[r.pc.challenge]);
      assert Fits(s.users, s.log.issued[r.pc.challenge].origin.value);
      assert UserInv(s.log, r.user, s.users[r.user]) && Whole(s.users[r.user]);
    }
  }

  // ------------------------------------------------------------ interference

  predicate Foreign(me: nat, actions: seq<Action>) {
    forall a :: a in actions ==> !(ByRun(a) && a.run == me)
  }

  lemma OthersMove(s: State, a: Action, id: nat, me: nat)
    requires me in s.runs && id != me
    ensures me in AfterRun(s, a, id).runs && AfterRun(s, a, id).runs[me] == s.runs[me]
  {
    match a
    case Read(_, _) =>
    case Burn(_) =>
    case RejectOver(_) =>
    case Compare(_) =>
    case Consume(_) =>
    case Apply(_) =>
    case Fail(_) =>
    case _ =>
  }

  lemma ForeignStep(s: State, a: Action, me: nat)
    requires me in s.runs && !(ByRun(a) && a.run == me)
    ensures me in Step(s, a).runs && Step(s, a).runs[me] == s.runs[me]
  {
    if ByRun(a) {
      OthersMove(s, a, a.run, me);
    }
  }

  lemma {:induction false} ForeignKeepsRun(s: State, actions: seq<Action>, me: nat)
    requires me in s.runs && Foreign(me, actions)
    ensures me in RunAll(s, actions).runs && RunAll(s, actions).runs[me] == s.runs[me]
  {
    if actions != [] {
      ForeignKeepsRun(s, actions[..|actions| - 1], me);
      ForeignStep(RunAll(s, actions[..|actions| - 1]), actions[|actions| - 1], me);
    }
  }

  lemma {:induction false} RunAllAppend(s: State, a: seq<Action>, b: seq<Action>)
    ensures RunAll(s, a + b) == RunAll(RunAll(s, a), b)
  {
    if b == [] {
      assert a + b == a;
    } else {
      assert (a + b)[..|a + b| - 1] == a + b[..|b| - 1];
      RunAllAppend(s, a, b[..|b| - 1]);
    }
  }

  ghost predicate Reaches(s: State, t: State) {
    exists actions :: RunAll(s, actions) == t
  }

  lemma ReachesNext(s: State, t: State, a: Action, u: State)
    requires Reaches(s, t) && u == Step(t, a)
    ensures Reaches(s, u)
  {
    var actions :| RunAll(s, actions) == t;
    RunAllAppend(s, actions, [a]);
    assert [a][..0] == [];
    assert RunAll(t, [a]) == u;
  }

  /** t is reached from s by steps of the machine, and satisfies its invariant. */
  ghost predicate Sound(s: State, t: State) {
    Reaches(s, t) && Inv(t)
  }

  lemma SoundAfter(s: State, t: State, actions: seq<Action>)
    requires Sound(s, t)
    ensures Sound(s, RunAll(t, actions))
  {
    var before :| RunAll(s, before) == t;
    RunAllAppend(s, before, actions);
    RunKeepsInv(t, actions);
  }

  lemma SoundTogether(s: State, t: State, u: State)
    requires Sound(s, t) && Sound(t, u)
    ensures Sound(s, u)
  {
    var actions :| RunAll(t, actions) == u;
    SoundAfter(s, t, actions);
  }

  lemma TurnIsSound(s: State, t: State, a: Action, u: State)
    requires Sound(s, t) && u == Step(t, a)
    ensures Sound(s, u)
  {
    SoundAfter(s, t, [a]);
    assert [a][..0] == [];
    assert RunAll(t, [a]) == u;
  }

  lemma BeginIsSound(s: State, a: Action, t: State)
    requires Inv(s) && t == Step(s, a)
    ensures Sound(s, t)
  {
    assert RunAll(s, []) == s;
    TurnIsSound(s, s, a, t);
  }

  lemma OthersAreSound(s: State, t: State, actions: seq<Action>, me: nat)
    requires Sound(s, t) && me in t.runs && Foreign(me, actions)
    ensures Sound(s, RunAll(t, actions))
    ensures me in RunAll(t, actions).runs && RunAll(t, actions).runs[me] == t.runs[me]
  {
    SoundAfter(s, t, actions);
    ForeignKeepsRun(t, actions, me);
  }

  // ------------------------------------------------------------------ in time

  /** The newest of the challenges for the user and purpose that are not consumed, and not expired. */
  ghost predicate InTime(s: State, c: nat, user: nat, purpose: Purpose) {
    && c in s.rows && !s.rows[c].consumed
    && c in s.log.issued && s.log.issued[c].user == user && s.log.issued[c].purpose == purpose
    && s.now <= s.log.issued[c].expires
    && forall d | d in s.rows && !s.rows[d].consumed && d in s.log.issued ::
         s.log.issued[d].user == user && s.log.issued[d].purpose == purpose ==> d <= c
  }

  /** At action i of the trace, request `id` read challenge c, in time. */
  ghost predicate ReadInTime(actions: seq<Action>, i: nat, id: nat, c: nat)
    requires i < |actions|
  {
    var s := RunAll(Empty, actions[..i]);
    actions[i] == Read(id, c) && id in s.runs && InTime(s, c, s.runs[id].user, s.runs[id].purpose)
  }

  /** At action i of the trace, challenge c was issued, to expire a fixed time later. */
  ghost predicate IssuedFor(actions: seq<Action>, i: nat, c: nat, expires: nat)
    requires i < |actions|
  {
    var s := RunAll(Empty, actions[..i]);
    && (actions[i].IssueVerify? || actions[i].IssueRecover?) && actions[i].challenge == c
    && c !in s.log.issued && expires == s.now + EMAIL_CODE_TTL
  }

  ghost predicate HasReadInTime(actions: seq<Action>, id: nat, c: nat) {
    exists i :: 0 <= i < |actions| && ReadInTime(actions, i, id, c)
  }

  ghost predicate HasBeenIssued(actions: seq<Action>, c: nat, expires: nat) {
    exists i :: 0 <= i < |actions| && IssuedFor(actions, i, c, expires)
  }

  lemma OwnClaim(s: State, a: Action, id: nat, c: nat)
    requires id in s.runs && ByRun(a) && a.run == id
    requires Claimed(AfterRun(s, a, id).runs[id].pc) == Some(c)
    ensures Claimed(s.runs[id].pc) == Some(c)
            || (a == Read(id, c) && InTime(s, c, s.runs[id].user, s.runs[id].purpose))
  {
    match a
    case Read(_, _) =>
    case Burn(_) =>
    case RejectOver(_) =>
    case Compare(_) =>
    case Consume(_) =>
    case Apply(_) =>
    case Fail(_) =>
  }

  /** A request comes to hold a challenge only by reading it in time. */
  lemma ClaimStep(s: State, a: Action, id: nat, c: nat)
    requires id in Step(s, a).runs && Claimed(Step(s, a).runs[id].pc) == Some(c)
    ensures id in s.runs
    ensures Claimed(s.runs[id].pc) == Some(c)
            || (a == Read(id, c) && InTime(s, c, s.runs[id].user, s.runs[id].purpose))
  {
    if id in s.runs {
      if ByRun(a) && a.run == id {
        OwnClaim(s, a, id, c);
      } else {
        ForeignStep(s, a, id);
      }
    } else if ByRun(a) {
      OnlyOwnRun(s, a, a.run, id);
    }
  }

  lemma OnlyOwnRun(s: State, a: Action, run: nat, id: nat)
    requires id !in s.runs
    ensures id !in AfterRun(s, a, run).runs
  {
    match a
    case Read(_, _) =>
    case Burn(_) =>
    case RejectOver(_) =>
    case Compare(_) =>
    case Consume(_) =>
    case Apply(_) =>
    case Fail(_) =>
    case _ =>
  }

  /** Tickets are drawn, and grants given, only to requests that hold the challenge. */
  lemma LogStep(s: State, a: Action, c: nat, ticket: nat)
    ensures var log, log' := s.log, Step(s, a).log;
            && ((c, ticket) in log'.drawn ==>
                  ((c, ticket) in log.drawn && log.drawn[(c, ticket)] == log'.drawn[(c, ticket)])
                  || Holds(s, log'.drawn[(c, ticket)], c))
            && (c in log'.granted ==>
                  (c in log.granted && log.granted[c] == log'.granted[c]) || Holds(s, log'.granted[c], c))
  {
    if ByRun(a) {
      OwnLog(s, a, a.run, c, ticket);
    }
  }

  predicate Holds(s: State, id: nat, c: nat) {
    id in s.runs && Claimed(s.runs[id].pc) == Some(c)
  }

  lemma OwnLog(s: State, a: Action, id: nat, c: nat, ticket: nat)
    ensures var log, log' := s.log, AfterRun(s, a, id).log;
            && ((c, ticket) in log'.drawn ==>
                  ((c, ticket) in log.drawn && log.drawn[(c, ticket)] == log'.drawn[(c, ticket)])
                  || Holds(s, log'.drawn[(c, ticket)], c))
            && (c in log'.granted ==>
                  (c in log.granted && log.granted[c] == log'.granted[c]) || Holds(s, log'.granted[c], c))
  {
    match a
    case Read(_, _) =>
    case Burn(_) =>
    case RejectOver(_) =>
    case Compare(_) =>
    case Consume(_) =>
    case Apply(_) =>
    case Fail(_) =>
    case _ =>
  }

  lemma {:induction false} HeldWasRead(actions: seq<Action>, id: nat, c: nat)
    ensures Holds(RunAll(Empty, actions), id, c) ==> HasReadInTime(actions, id, c)
  {
    if Holds(RunAll(Empty, actions), id, c) {
      var n := |actions| - 1;
      ClaimStep(RunAll(Empty, actions[..n]), actions[n], id, c);
      if Holds(RunAll(Empty, actions[..n]), id, c) {
        HeldWasRead(actions[..n], id, c);
        StillRead(actions, id, c);
      } else {
        assert ReadInTime(actions, n, id, c);
      }
    }
  }

  lemma StillRead(actions: seq<Action>, id: nat, c: nat)
    requires actions != [] && HasReadInTime(actions[..|actions| - 1], id, c)
    ensures HasReadInTime(actions, id, c)
  {
    var n := |actions| - 1;
    var i :| 0 <= i < n && ReadInTime(actions[..n], i, id, c);
    assert actions[..n][..i] == actions[..i];
    assert ReadInTime(actions, i, id, c);
  }

  lemma {:induction false} IssuedWhen(actions: seq<Action>, c: nat)
    ensures var log := RunAll(Empty, actions).log;
            c in log.issued ==> HasBeenIssued(actions, c, log.issued[c].expires)
  {
    var log := RunAll(Empty, actions).log;
    if c in log.issued {
      var n := |actions| - 1;
      var before := RunAll(Empty, actions[..n]);
      IssueStep(before, actions[n], c);
      if c in before.log.issued {
        IssuedWhen(actions[..n], c);
        var i :| 0 <= i < n && IssuedFor(actions[..n], i, c, log.issued[c].expires);
        assert actions[..n][..i] == actions[..i];
        assert IssuedFor(actions, i, c, log.issued[c].expires);
      } else {
        assert IssuedFor(actions, n, c, log.issued[c].expires);
      }
    }
  }

  lemma IssueStep(s: State, a: Action, c: nat)
    requires c in Step(s, a).log.issued
    ensures var issued := Step(s, a).log.issued;
            if c in s.log.issued then issued[c] == s.log.issued[c]
            else
              && (a.IssueVerify? || a.IssueRecover?) && a.challenge == c
              && issued[c].expires == s.now + EMAIL_CODE_TTL
  {
    if ByRun(a) {
      OwnIssued(s, a, a.run);
    }
  }

  lemma OwnIssued(s: State, a: Action, id: nat)
    ensures AfterRun(s, a, id).log.issued == s.log.issued
  {
    match a
    case Read(_, _) =>
    case Burn(_) =>
    case RejectOver(_) =>
    case Compare(_) =>
    case Consume(_) =>
    case Apply(_) =>
    case Fail(_) =>
    case _ =>
  }

  /**
   * A code is good for its time and no longer. Over every run, whoever drew an attempt at a
   * challenge, and whoever was granted it, had read it when it was the newest of its user and
   * purpose, unconsumed, and no later than a fixed time after it was issued.
   */
  lemma {:induction false} OnlyInTime(actions: seq<Action>, c: nat, ticket: nat)
    ensures var log := RunAll(Empty, actions).log;
            && ((c, ticket) in log.drawn ==> HasReadInTime(actions, log.drawn[(c, ticket)], c))
            && (c in log.granted ==> HasReadInTime(actions, log.granted[c], c))
            && (c in log.issued ==> HasBeenIssued(actions, c, log.issued[c].expires))
  {
    IssuedWhen(actions, c);
    if actions != [] {
      var n := |actions| - 1;
      var before, log := RunAll(Empty, actions[..n]), RunAll(Empty, actions).log;
      OnlyInTime(actions[..n], c, ticket);
      LogStep(before, actions[n], c, ticket);
      forall id | Holds(before, id, c) ensures HasReadInTime(actions, id, c) {
        HeldWasRead(actions[..n], id, c);
        StillRead(actions, id, c);
      }
      forall id | HasReadInTime(actions[..n], id, c) ensures HasReadInTime(actions, id, c) {
        StillRead(actions, id, c);
      }
    }
  }

  // ------------------------------------------------------------- undisturbed

  /** A challenge stays in the table until it is out of date, and is not taken back once consumed. */
  lemma RowsStay(s: State, a: Action, c: nat)
    requires c in s.rows && c in s.log.issued
    ensures var t := Step(s, a);
            && (c in t.rows || (a.Sweep? && s.now > s.log.issued[c].expires))
            && (c in t.rows && s.rows[c].consumed ==> t.rows[c].consumed)
            && (c in t.rows ==> t.rows[c].attempts >= s.rows[c].attempts)
  {
    if ByRun(a) {
      OwnRows(s, a, a.run, c);
    }
  }

  lemma OwnRows(s: State, a: Action, id: nat, c: nat)
    requires c in s.rows
    ensures var t := AfterRun(s, a, id);
            && c in t.rows && (s.rows[c].consumed ==> t.rows[c].consumed) && t.rows[c].attempts >= s.rows[c].attempts
  {
    match a
    case Read(_, _) =>
    case Burn(_) =>
    case RejectOver(_) =>
    case Compare(_) =>
    case Consume(_) =>
    case Apply(_) =>
    case Fail(_) =>
    case _ =>
  }

  /** Nobody comes between, and no statement fails. */
  ghost predicate Calm(env: nat -> seq<Action>, fault: nat -> bool) {
    forall k :: env(k) == [] && !fault(k)
  }

  /** The row once a code was presented in time: the attempt paid for, and the right code or one too many spends it. */
  function Paid(row: Row, c: Challenge, hash: nat): Row {
    Row(row.attempts + 1, row.attempts + 1 > c.maxAttempts || hash == c.hash)
  }

  /** How the paid attempt ends, undisturbed. */
  ghost predicate Settled(rows: map<nat, Row>, issued: map<nat, Challenge>, c: nat, over: bool, hash: nat,
      after: map<nat, Row>, answer: Option<nat>) {
    c in rows && !rows[c].consumed && c in issued ==>
      && after == rows[c := rows[c].(consumed := over || issued[c].hash == hash)]
      && answer == if !over && issued[c].hash == hash then Some(c) else None
  }

  /** How an attempt ends, undisturbed, the challenge having been read in time. */
  ghost predicate Tried(rows: map<nat, Row>, issued: map<nat, Challenge>, c: nat, hash: nat,
      after: map<nat, Row>, answer: Option<nat>) {
    c in rows && !rows[c].consumed && c in issued ==>
      && after == rows[c := Paid(rows[c], issued[c], hash)]
      && answer == if Accepted(rows[c], issued[c], hash) then Some(c) else None
  }

  /** What paying for it does, undisturbed. */
  predicate PaidFor(rows: map<nat, Row>, issued: map<nat, Challenge>, c: nat, paid: map<nat, Row>, over: bool,
      ok: bool) {
    c in rows && c in issued ==>
      && ok
      && paid == rows[c := rows[c].(attempts := rows[c].attempts + 1)]
      && over == (rows[c].attempts + 1 > issued[c].maxAttempts)
  }

  lemma PaidThenSettled(rows: map<nat, Row>, paid: map<nat, Row>, issued: map<nat, Challenge>, c: nat, over: bool,
      ok: bool, hash: nat, after: map<nat, Row>, answer: Option<nat>)
    requires PaidFor(rows, issued, c, paid, over, ok)
    requires ok ==> Settled(paid, issued, c, over, hash, after, answer)
    ensures Tried(rows, issued, c, hash, after, answer)
  {
  }

  predicate Accepted(row: Row, c: Challenge, hash: nat) {
    row.attempts + 1 <= c.maxAttempts && hash == c.hash
  }

  /** What a code presented by an undisturbed request comes to, from its newest challenge if it has one. */
  ghost predicate Answered(s: State, user: nat, purpose: Purpose, hash: nat, rows: map<nat, Row>, answer: Option<nat>) {
    && ((forall c :: !IsLatest(s, c, user, purpose)) ==> answer.None? && rows == s.rows)
    && forall c | IsLatest(s, c, user, purpose) ::
         if s.now > s.log.issued[c].expires then answer.None? && rows == s.rows
         else
           && rows == s.rows[c := Paid(s.rows[c], s.log.issued[c], hash)]
           && answer == if Accepted(s.rows[c], s.log.issued[c], hash) then Some(c) else None
  }

  /** What is done with a challenge once consumed: an address still claimed is confirmed, or two-step reset. */
  predicate Used(s: State, r: Run, answer: Option<nat>, users: map<nat, User>, resets: seq<Reset>, used: Option<nat>) {
    && (answer.None? ==> used.None? && users == s.users && resets == s.resets)
    && (answer.Some? && r.purpose == Recover ==>
          used == answer && users == s.users && r.gate.Some?
          && resets == s.resets + [Reset(r.user, answer.value, r.gate.value)])
    && (answer.Some? && r.purpose == Verify ==>
          && resets == s.resets && answer.value in s.log.issued
          && var address := s.log.issued[answer.value].address;
             if r.user in s.users && s.users[r.user].email == Some(address)
             then
               && used == answer
               && users == s.users[r.user := User(Some(address), Some(address), Some(s.now), answer,
                                                  s.users[r.user].changes)]
             else used.None? && users == s.users)
  }

  lemma LatestIsUnique(s: State, c: nat, d: nat, user: nat, purpose: Purpose)
    requires IsLatest(s, c, user, purpose) && IsLatest(s, d, user, purpose)
    ensures c == d
  {
  }

  lemma OnlyAnswer(s: State, c: nat, user: nat, purpose: Purpose, hash: nat, rows: map<nat, Row>, answer: Option<nat>)
    requires IsLatest(s, c, user, purpose) && s.now <= s.log.issued[c].expires
    requires rows == s.rows[c := Paid(s.rows[c], s.log.issued[c], hash)]
    requires answer == if Accepted(s.rows[c], s.log.issued[c], hash) then Some(c) else None
    ensures Answered(s, user, purpose, hash, rows, answer)
  {
    forall d | IsLatest(s, d, user, purpose) ensures d == c {
      LatestIsUnique(s, c, d, user, purpose);
    }
  }

  /** A whole request, undisturbed: how its code is answered, and what is done with the challenge. */
  ghost predicate Redeemed(s: State, r: Run, rows: map<nat, Row>, users: map<nat, User>, resets: seq<Reset>,
      used: Option<nat>) {
    exists answer ::
      Answered(s, r.user, r.purpose, r.hash, rows, answer) && Used(s, r, answer, users, resets, used)
  }

  lemma RedeemedBy(s: State, t: State, r: Run, rows: map<nat, Row>, users: map<nat, User>, resets: seq<Reset>,
      answer: Option<nat>, used: Option<nat>)
    requires Answered(s, r.user, r.purpose, r.hash, rows, answer) && Used(t, r, answer, users, resets, used)
    requires t.now == s.now && t.users == s.users && t.resets == s.resets && t.log.issued == s.log.issued
    ensures Redeemed(s, r, rows, users, resets, used)
  {
    assert Used(s, r, answer, users, resets, used);
  }

  lemma RedeemedSame(s: State, t: State, r: Run, rows: map<nat, Row>, users: map<nat, User>, resets: seq<Reset>,
      used: Option<nat>)
    requires Redeemed(t, r, rows, users, resets, used) && t == s.(runs := t.runs)
    ensures Redeemed(s, r, rows, users, resets, used)
  {
    var answer :| Answered(t, r.user, r.purpose, r.hash, rows, answer) && Used(t, r, answer, users, resets, used);
    assert forall c :: IsLatest(s, c, r.user, r.purpose) <==> IsLatest(t, c, r.user, r.purpose);
    assert Answered(s, r.user, r.purpose, r.hash, rows, answer) && Used(s, r, answer, users, resets, used);
  }

  /** The account was found by its verified recovery address. */
  predicate IsFound(users: map<nat, User>, gate: Option<Found>, user: nat, address: string) {
    && user in users && users[user].recovery == Some(address) && users[user].verifiedAt.Some?
    && gate.Some? && gate.value.user == user && gate.value.address == address
  }

  /** Between two states the request read the challenge, in time. */
  ghost predicate ReadBetween(s: State, u: State, c: nat, user: nat, purpose: Purpose) {
    exists t :: Reaches(s, t) && Reaches(t, u) && InTime(t, c, user, purpose)
  }

  lemma ReadBefore(s: State, t: State, u: State, c: nat, user: nat, purpose: Purpose)
    requires ReadBetween(s, t, c, user, purpose) && Reaches(t, u)
    ensures ReadBetween(s, u, c, user, purpose)
  {
    var m :| Reaches(s, m) && Reaches(m, t) && InTime(m, c, user, purpose);
    ReachesThrough(m, t, u);
  }

  lemma ReadAfter(s: State, t: State, u: State, c: nat, user: nat, purpose: Purpose)
    requires Reaches(s, t) && ReadBetween(t, u, c, user, purpose)
    ensures ReadBetween(s, u, c, user, purpose)
  {
    var m :| Reaches(t, m) && Reaches(m, u) && InTime(m, c, user, purpose);
    ReachesThrough(s, t, m);
  }

  lemma ReachesThrough(s: State, t: State, u: State)
    requires Reaches(s, t) && Reaches(t, u)
    ensures Reaches(s, u)
  {
    var a :| RunAll(s, a) == t;
    var b :| RunAll(t, b) == u;
    RunAllAppend(s, a, b);
  }

  // ---------------------------------------------------------------- a witness

  /** One request that takes the newest challenge, holds its code and is the first to try it. */
  predicate Ready(t: State, run: nat, c: nat) {
    && run in t.runs && t.runs[run].pc == Reading && IsLatest(t, c, t.runs[run].user, t.runs[run].purpose)
    && t.rows[c] == Row(0, false) && t.now <= t.log.issued[c].expires && t.log.issued[c].hash == t.runs[run].hash
    && t.log.issued[c].maxAttempts >= 1 && c in t.log.compared && c in t.log.comparisons
  }

  /** The log once that request has drawn the first ticket, compared and been granted. */
  function LogAfterGrant(log: Log, run: nat, c: nat): Log
    requires c in log.compared && c in log.comparisons
  {
    Granted(Compared(Drawn(log, c, 1, run), c, 1), c, run)
  }

  function AfterGrant(t: State, run: nat, c: nat): State
    requires Ready(t, run, c)
  {
    t.(rows := t.rows[c := Row(1, true)], log := LogAfterGrant(t.log, run, c),
       runs := t.runs[run := t.runs[run].(pc := Applying(c))])
  }

  lemma ReadyIsGranted(s: State, t: State, run: nat, c: nat)
    requires Reaches(s, t) && Ready(t, run, c)
    ensures Reaches(s, AfterGrant(t, run, c))
  {
    var r := t.runs[run];
    var t1 := Move(t, run, r, Burning(c));
    ReachesNext(s, t, Read(run, c), t1);
    var t2 := Move(t1.(rows := t1.rows[c := Row(1, false)], log := Drawn(t1.log, c, 1, run)), run, r, Comparing(c, 1));
    ReachesNext(s, t1, Burn(run), t2);
    RestOfGrant(s, t, t2, run, c);
  }

  lemma RestOfGrant(s: State, t: State, t2: State, run: nat, c: nat)
    requires Ready(t, run, c) && Reaches(s, t2)
    requires t2 == t.(rows := t.rows[c := Row(1, false)], log := Drawn(t.log, c, 1, run),
                      runs := t.runs[run := t.runs[run].(pc := Comparing(c, 1))])
    ensures Reaches(s, AfterGrant(t, run, c))
  {
    var r := t.runs[run];
    var t3 := Move(t2.(log := Compared(t2.log, c, 1)), run, r, Consuming(c));
    ReachesNext(s, t2, Compare(run), t3);
    EndOfGrant(s, t, t3, run, c);
  }

  lemma EndOfGrant(s: State, t: State, t3: State, run: nat, c: nat)
    requires Ready(t, run, c) && Reaches(s, t3)
    requires t3 == t.(rows := t.rows[c := Row(1, false)], log := Compared(Drawn(t.log, c, 1, run), c, 1),
                      runs := t.runs[run := t.runs[run].(pc := Consuming(c))])
    ensures Reaches(s, AfterGrant(t, run, c))
  {
    var t4 := Move(t3.(rows := Consumed(t3.rows, c), log := Granted(t3.log, c, run)), run, t.runs[run], Applying(c));
    ReachesNext(s, t3, Consume(run), t4);
    assert t4 == AfterGrant(t, run, c);
  }

  /** An enrolment under way: the address set, a code sent, and a request come to present it. */
  function Enrolling(t: State, address: string, c: nat, run: nat): State
    requires 1 in t.users
  {
    var u := t.(users := t.users[1 := Pending(t.users[1], address)]);
    var v := Issue(u, c, VerifyChallenge(t.now, 1, address, 7));
    v.(runs := v.runs[run := Run(1, Verify, 7, None, Reading)])
  }

  lemma EnrollingReached(s: State, t: State, address: string, c: nat, run: nat)
    requires Reaches(s, t) && 1 in t.users && c !in t.log.issued && run !in t.runs
    ensures Reaches(s, Enrolling(t, address, c, run))
  {
    var t1 := t.(users := t.users[1 := Pending(t.users[1], address)]);
    ReachesNext(s, t, SetPending(1, address), t1);
    var t2 := Issue(t1, c, VerifyChallenge(t.now, 1, address, 7));
    ReachesNext(s, t1, IssueVerify(c, 1, address, 7), t2);
    ReachesNext(s, t2, BeginVerify(run, 1, 7), Enrolling(t, address, c, run));
  }

  /** What an enrolment leaves: the address confirmed, its challenge spent, all else as it was. */
  predicate EnrolledFrom(t: State, u: State, address: string, c: nat) {
    && 1 in u.users && Recoverable(u.users[1], address) && u.users[1].email == Some(address)
    && u.rows == t.rows[c := Row(1, true)] && u.found == t.found && u.now == t.now && u.resets == t.resets
    && u.log.issued == t.log.issued[c := VerifyChallenge(t.now, 1, address, 7)]
    && t.log.compared.Keys <= u.log.compared.Keys && t.log.comparisons.Keys <= u.log.comparisons.Keys
  }

  lemma Enrolled(s: State, t: State, address: string, c: nat, run: nat) returns (u: State)
    requires Reaches(s, t) && 1 in t.users && c !in t.log.issued && run !in t.runs
    requires forall d :: d in t.rows ==> d < c
    ensures Reaches(s, u) && EnrolledFrom(t, u, address, c) && u.runs.Keys == t.runs.Keys + {run}
  {
    EnrollingReached(s, t, address, c, run);
    EnrollingIsReady(t, address, c, run);
    var t3 := Enrolling(t, address, c, run);
    ReadyIsGranted(s, t3, run, c);
    u := Confirmed(s, t, t3, address, c, run);
  }

  lemma EnrollingIsReady(t: State, address: string, c: nat, run: nat)
    requires 1 in t.users && c !in t.log.issued && run !in t.runs
    requires forall d :: d in t.rows ==> d < c
    ensures Ready(Enrolling(t, address, c, run), run, c)
  {
    assert Enrolling(t, address, c, run).rows.Keys == t.rows.Keys + {c};
  }

  lemma Enrolls(t: State, t4: State, address: string, c: nat, run: nat)
    requires 1 in t.users && c !in t.log.issued && run !in t.runs && Ready(Enrolling(t, address, c, run), run, c)
    requires t4 == AfterGrant(Enrolling(t, address, c, run), run, c)
    ensures var u := AfterApply(t4, run, t4.runs[run]);
            EnrolledFrom(t, u, address, c) && u.runs.Keys == t.runs.Keys + {run}
  {
  }

  lemma Confirmed(s: State, t: State, t3: State, address: string, c: nat, run: nat) returns (u: State)
    requires 1 in t.users && c !in t.log.issued && run !in t.runs && t3 == Enrolling(t, address, c, run)
    requires Ready(t3, run, c) && Reaches(s, AfterGrant(t3, run, c))
    ensures Reaches(s, u) && EnrolledFrom(t, u, address, c) && u.runs.Keys == t.runs.Keys + {run}
  {
    var t4 := AfterGrant(t3, run, c);
    u := AfterApply(t4, run, t4.runs[run]);
    Enrolls(t, t4, address, c, run);
    ReachesNext(s, t4, Apply(run), u);
  }

  /**
   * A code sent to the old address still resets the account after a new address has been
   * enrolled and verified: the lookup is by the new address, and the challenge is found by user
   * and purpose alone.
   */
  lemma OldCodeStillResets()
    ensures exists u :: Reaches(Empty, u) && ResetByOldCode(u)
  {
    assert RunAll(Empty, []) == Empty;
    var s1 := Empty.(users := map[1 := Newcomer]);
    ReachesNext(Empty, Empty, Join(1), s1);
    var s2 := Enrolled(Empty, s1, "a", 0, 0);
    var s4 := CodeSent(s2);
    var s5 := Enrolled(Empty, s4, "b", 2, 1);
    OldCodeRedeemed(s5);
  }

  /** The account's address is "b", and its one reset used a code sent to "a". */
  predicate ResetByOldCode(u: State) {
    && 1 in u.users && u.users[1].email == u.users[1].recovery == Some("b")
    && |u.resets| == 1 && u.resets[0].user == 1 && u.resets[0].gate.address == "b"
    && u.resets[0].challenge in u.log.issued && u.log.issued[u.resets[0].challenge].address == "a"
  }

  predicate OldCode(u: State) {
    && 1 in u.log.issued && u.log.issued[1].user == 1 && u.log.issued[1].purpose == Recover
    && u.log.issued[1].address == "a" && u.log.issued[1].hash == 8 && u.log.issued[1].maxAttempts == 5
    && u.log.issued[1].expires == EMAIL_CODE_TTL && 1 in u.log.compared && 1 in u.log.comparisons
  }

  lemma CodeSent(s2: State) returns (s4: State)
    requires Reaches(Empty, s2) && s2.now == 0 && 1 in s2.users && Recoverable(s2.users[1], "a")
    requires s2.found == map[] && s2.rows == map[0 := Row(1, true)] && s2.log.issued.Keys == {0}
    ensures Reaches(Empty, s4) && OldCode(s4) && s4.now == 0 && s4.users == s2.users && s4.resets == s2.resets
    ensures s4.runs == s2.runs && s4.rows == map[0 := Row(1, true), 1 := Row(0, false)] && s4.log.issued.Keys == {0, 1}
  {
    var s3 := AfterFound(s2, 0, 1, "a");
    ReachesNext(Empty, s2, FindRecovery(0, 1, "a"), s3);
    s4 := Issue(s3, 1, RecoverChallenge(0, s3.found[0], 8));
    ReachesNext(Empty, s3, IssueRecover(1, 0, 8), s4);
    assert s4.rows == map[0 := Row(1, true), 1 := Row(0, false)];
  }

  lemma OldCodeRedeemed(s5: State)
    requires Reaches(Empty, s5) && OldCode(s5) && s5.now == 0 && 1 in s5.users && s5.resets == [] && 2 !in s5.runs
    requires Recoverable(s5.users[1], "b") && s5.users[1].email == Some("b")
    requires s5.rows == map[0 := Row(1, true), 1 := Row(0, false), 2 := Row(1, true)]
    ensures exists u :: Reaches(Empty, u) && ResetByOldCode(u)
  {
    var s6 := AfterBeginRecover(s5, 2, 1, "b", 8);
    ReachesNext(Empty, s5, BeginRecover(2, 1, "b", 8), s6);
    ReadyIsGranted(Empty, s6, 2, 1);
    OldCodeResets(s6, AfterGrant(s6, 2, 1));
  }

  lemma OldCodeResets(s6: State, s7: State)
    requires Ready(s6, 2, 1) && s7 == AfterGrant(s6, 2, 1) && Reaches(Empty, s7)
    requires OldCode(s6) && 1 in s6.users && s6.users[1].email == s6.users[1].recovery == Some("b") && s6.resets == []
    requires s6.runs[2].purpose == Recover && s6.runs[2].user == 1
    requires s6.runs[2].gate.Some? && s6.runs[2].gate.value.address == "b"
    ensures exists u :: Reaches(Empty, u) && ResetByOldCode(u)
  {
    var u := AfterApply(s7, 2, s7.runs[2]);
    ReachesNext(Empty, s7, Apply(2), u);
    assert ResetByOldCode(u);
  }

  // -------------------------------------------------------------- the tables

  class Accounts {
    var now: nat
    var users: map<nat, User>
    var rows: map<nat, Row>
    var runs: map<nat, Run>
    var found: map<nat, Found>
    var resets: seq<Reset>
    var log: Log

    ghost function Model(): State
      reads this
    {
      State(now, users, rows, runs, found, resets, log)
    }

    constructor ()
      ensures Model() == Empty
    {
      now, users, rows, runs, found, resets, log := 0, map[], map[], map[], map[], [], Empty.log;
    }

    method SetPendingEmail(user: nat, address: string)
      modifies this`users
      ensures Model() == Step(old(Model()), SetPending(user, address))
    {
      if user in users {
        users := users[user := User(Some(address), None, None, None, users[user].changes + 1)];
      }
    }

    method ClearEmail(user: nat)
      modifies this`users
      ensures Model() == Step(old(Model()), Clear(user))
    {
      if user in users {
        users := users[user := User(None, None, None, None, users[user].changes + 1)];
      }
    }

    /** Only if the account still claims the address. */
    method ConfirmEmail(user: nat, address: string, challenge: nat) returns (ok: bool)
      modifies this`users
      ensures ok <==> user in old(users) && old(users)[user].email == Some(address)
      ensures users ==
              if !ok then old(users)
              else
                var changes := old(users)[user].changes;
                old(users)[user := User(Some(address), Some(address), Some(now), Some(challenge), changes)]
    {
      ok := user in users && users[user].email == Some(address);
      if ok {
        users := users[user := Verified(users[user], address, now, challenge)];
      }
    }

    method LatestEmailChallenge(user: nat, purpose: Purpose) returns (challenge: Option<nat>)
      ensures challenge.Some? ==> IsLatest(Model(), challenge.value, user, purpose)
      ensures challenge.None? ==> forall d :: !Live(Model(), d, user, purpose)
    {
      var s := State(now, users, rows, runs, found, resets, log);
      var left := rows.Keys;
      challenge := None;
      while left != {}
        invariant left <= rows.Keys
        invariant challenge.Some? ==> Live(s, challenge.value, user, purpose)
        invariant forall d :: d in rows && d !in left && Live(s, d, user, purpose) ==>
                    challenge.Some? && d <= challenge.value
      {
        var d :| d in left;
        if Live(s, d, user, purpose) && (challenge.None? || challenge.value < d) {
          challenge := Some(d);
        }
        left := left - {d};
      }
    }

    method BurnEmailAttempt(challenge: nat) returns (attempts: Option<nat>)
      modifies this`rows
      ensures attempts == if challenge in old(rows) then Some(old(rows)[challenge].attempts + 1) else None
      ensures rows == if challenge in old(rows)
                      then old(rows)[challenge := old(rows)[challenge].(attempts := old(rows)[challenge].attempts + 1)]
                      else old(rows)
    {
      if challenge !in rows {
        return None;
      }
      rows := rows[challenge := rows[challenge].(attempts := rows[challenge].attempts + 1)];
      return Some(rows[challenge].attempts);
    }

    method ConsumeEmailChallenge(challenge: nat) returns (consumed: bool)
      modifies this`rows
      ensures consumed <==> challenge in old(rows) && !old(rows)[challenge].consumed
      ensures rows == Consumed(old(rows), challenge)
    {
      consumed := challenge in rows && !rows[challenge].consumed;
      if consumed {
        rows := rows[challenge := rows[challenge].(consumed := true)];
      } else {
        assert challenge in rows ==> rows[challenge := rows[challenge].(consumed := true)] == rows;
      }
    }

    method Others(actions: seq<Action>)
      modifies this
      ensures Model() == RunAll(old(Model()), actions)
    {
      for i := 0 to |actions|
        invariant Model() == RunAll(old(Model()), actions[..i])
      {
        var t := Step(State(now, users, rows, runs, found, resets, log), actions[i]);
        now, users, rows, runs, found, resets, log := t.now, t.users, t.rows, t.runs, t.found, t.resets, t.log;
        assert actions[..i + 1][..i] == actions[..i];
      }
      assert actions[..|actions|] == actions;
    }

    // The statements of one verification, each an action of the machine.

    method GiveUp(me: nat)
      requires me in runs && !runs[me].pc.Done?
      modifies this`runs
      ensures Model() == Step(old(Model()), Fail(me))
      ensures me in runs && runs[me] == old(runs[me]).(pc := Failed)
    {
      runs := runs[me := runs[me].(pc := Failed)];
    }

    method ReadChallenge(me: nat) returns (challenge: Option<nat>)
      requires me in runs && runs[me].pc.Reading?
      modifies this`runs
      ensures challenge.Some? ==> Model() == Step(old(Model()), Read(me, challenge.value))
      ensures challenge.None? ==>
                Model() == old(Model()) && forall d :: !IsLatest(Model(), d, runs[me].user, runs[me].purpose)
      ensures challenge.Some? ==>
                && IsLatest(old(Model()), challenge.value, old(runs[me]).user, old(runs[me]).purpose)
                && Model() == old(Model()).(runs := runs)
                && runs[me].pc == if now > log.issued[challenge.value].expires then Failed else Burning(challenge.value)
      ensures me in runs && runs[me] == old(runs[me]).(pc := runs[me].pc)
    {
      var r := runs[me];
      challenge := LatestEmailChallenge(r.user, r.purpose);
      if challenge.Some? {
        var pc := if now > log.issued[challenge.value].expires then Failed else Burning(challenge.value);
        runs := runs[me := r.(pc := pc)];
      }
    }

    method DrawTicket(me: nat)
      requires me in runs && runs[me].pc.Burning? && runs[me].pc.challenge in log.issued
      modifies this`rows, this`runs, this`log
      ensures Model() == Step(old(Model()), Burn(me))
      ensures me in runs && runs[me] == old(runs[me]).(pc := runs[me].pc)
      ensures now == old(now) && users == old(users) && resets == old(resets) && log.issued == old(log).issued
      ensures var c := old(runs[me]).pc.challenge;
              if c !in old(rows) then runs[me].pc.Failed?
              else
                var paid := old(rows)[c].attempts + 1;
                && rows == old(rows)[c := old(rows)[c].(attempts := paid)]
                && runs[me].pc == if paid > log.issued[c].maxAttempts then OverLimit(c) else Comparing(c, paid)
    {
      var r, c := runs[me], runs[me].pc.challenge;
      var attempts := BurnEmailAttempt(c);
      if attempts.None? {
        runs := runs[me := r.(pc := Failed)];
      } else {
        log := Drawn(log, c, attempts.value, me);
        var pc := if attempts.value > log.issued[c].maxAttempts then OverLimit(c) else Comparing(c, attempts.value);
        runs := runs[me := r.(pc := pc)];
      }
    }

    method CompareCode(me: nat)
      requires me in runs && runs[me].pc.Comparing?
      requires var c := runs[me].pc.challenge; c in log.issued && c in log.compared && c in log.comparisons
      modifies this`runs, this`log
      ensures Model() == Step(old(Model()), Compare(me)) && log.issued == old(log).issued
      ensures me in runs && runs[me] == old(runs[me]).(pc := runs[me].pc)
      ensures var c := old(runs[me]).pc.challenge;
              runs[me].pc == if old(log).issued[c].hash == old(runs[me]).hash then Consuming(c) else Failed
    {
      var r, c := runs[me], runs[me].pc.challenge;
      log := Compared(log, c, r.pc.ticket);
      runs := runs[me := r.(pc := if log.issued[c].hash == r.hash then Consuming(c) else Failed)];
    }

    method ConsumeOwn(me: nat)
      requires me in runs && runs[me].pc.Consuming?
      modifies this`rows, this`runs, this`log
      ensures Model() == Step(old(Model()), Consume(me)) && log.issued == old(log).issued
      ensures me in runs && runs[me] == old(runs[me]).(pc := runs[me].pc)
      ensures var c := old(runs[me]).pc.challenge;
              && rows == Consumed(old(rows), c)
              && runs[me].pc == if c in old(rows) && !old(rows)[c].consumed then Applying(c) else Failed
    {
      var r, c := runs[me], runs[me].pc.challenge;
      var consumed := ConsumeEmailChallenge(c);
      if consumed {
        log := Granted(log, c, me);
        runs := runs[me := r.(pc := Applying(c))];
      } else {
        assert Consumed(old(rows), c) == old(rows) by {
          assert c in old(rows) ==> old(rows)[c].(consumed := true) == old(rows)[c];
        }
        runs := runs[me := r.(pc := Failed)];
      }
    }

    method SpendOverLimit(me: nat)
      requires me in runs && runs[me].pc.OverLimit?
      modifies this`rows, this`runs
      ensures Model() == Step(old(Model()), RejectOver(me))
      ensures rows == Consumed(old(rows), old(runs[me]).pc.challenge)
      ensures me in runs && runs[me] == old(runs[me]).(pc := Failed)
    {
      var r := runs[me];
      var _ := ConsumeEmailChallenge(r.pc.challenge);
      runs := runs[me := r.(pc := Failed)];
    }

    method ApplyGrant(me: nat) returns (ok: bool)
      requires me in runs && runs[me].pc.Applying? && runs[me].pc.challenge in log.issued
      requires runs[me].purpose == Recover ==> runs[me].gate.Some?
      modifies this`users, this`runs, this`resets
      ensures Model() == Step(old(Model()), Apply(me)) && log == old(log)
      ensures var answer := Some(old(runs[me]).pc.challenge);
              Used(old(Model()), old(runs[me]), answer, users, resets, if ok then answer else None)
      ensures me in runs && runs[me] == old(runs[me]).(pc := if ok then Done(old(runs)[me].pc.challenge) else Failed)
    {
      var r, c := runs[me], runs[me].pc.challenge;
      if r.purpose == Recover {
        resets := resets + [Reset(r.user, c, r.gate.value)];
        ok := true;
      } else {
        ok := ConfirmEmail(r.user, log.issued[c].address, c);
      }
      runs := runs[me := r.(pc := if ok then Done(c) else Failed)];
    }

    /** Others' statements, and then, if `fault`, an error of this request's own. */
    method Between(me: nat, ghost s0: State, actions: seq<Action>, fault: bool) returns (ok: bool)
      requires Sound(s0, Model()) && me in runs && Foreign(me, actions) && !runs[me].pc.Done?
      modifies this
      ensures Sound(s0, Model()) && me in runs && ok == !fault
      ensures runs[me] == if ok then old(runs[me]) else old(runs[me]).(pc := Failed)
      ensures actions == [] && !fault ==> Model() == old(Model())
    {
      OthersAreSound(s0, Model(), actions, me);
      Others(actions);
      if fault {
        ghost var before := Model();
        GiveUp(me);
        TurnIsSound(s0, before, Fail(me), Model());
      }
      return !fault;
    }

    method ReadOrGiveUp(me: nat, ghost s0: State) returns (ok: bool)
      requires Sound(s0, Model()) && me in runs && runs[me].pc.Reading?
      modifies this
      ensures Sound(s0, Model()) && me in runs && Model() == old(Model()).(runs := runs)
      ensures runs[me] == old(runs[me]).(pc := runs[me].pc) && if ok then runs[me].pc.Burning? else runs[me].pc.Failed?
      ensures ok ==> InTime(Model(), runs[me].pc.challenge, runs[me].user, runs[me].purpose)
      ensures ok ==> IsLatest(old(Model()), runs[me].pc.challenge, runs[me].user, runs[me].purpose)
      ensures !ok ==> forall c | IsLatest(old(Model()), c, runs[me].user, runs[me].purpose) ::
                old(now) > old(log).issued[c].expires
    {
      ghost var before := Model();
      var challenge := ReadChallenge(me);
      if challenge.None? {
        GiveUp(me);
        TurnIsSound(s0, before, Fail(me), Model());
        return false;
      }
      TurnIsSound(s0, before, Read(me, challenge.value), Model());
      return runs[me].pc.Burning?;
    }

    /** Read the newest challenge, pay for an attempt, and only then look at the code. */
    method ConsumeEmailCode(me: nat, env: nat -> seq<Action>, fault: nat -> bool) returns (challenge: Option<nat>)
      requires Inv(Model()) && me in runs && runs[me].pc.Reading? && forall k :: Foreign(me, env(k))
      modifies this
      ensures Sound(old(Model()), Model()) && me in runs
      ensures runs[me] == old(runs[me]).(pc := if challenge.Some? then Applying(challenge.value) else Failed)
      ensures challenge.Some? ==>
                ReadBetween(old(Model()), Model(), challenge.value, runs[me].user, runs[me].purpose)
      ensures Calm(env, fault) ==>
                && Answered(old(Model()), runs[me].user, runs[me].purpose, runs[me].hash, rows, challenge)
                && now == old(now) && users == old(users) && resets == old(resets) && log.issued == old(log).issued
    {
      ghost var s0 := Model();
      assert RunAll(s0, []) == s0;
      var ok := Between(me, s0, env(0), fault(0));
      if !ok {
        return None;
      }
      ok := ReadOrGiveUp(me, s0);
      if !ok {
        assert Calm(env, fault) ==>
            Answered(old(Model()), runs[me].user, runs[me].purpose, runs[me].hash, rows, None);
        return None;
      }
      ghost var s1, c := Model(), runs[me].pc.challenge;
      assert RunAll(s1, []) == s1;
      challenge := PayAndCompare(me, s1, env, fault);
      SoundTogether(s0, s1, Model());
      if challenge.Some? {
        assert ReadBetween(s0, Model(), c, runs[me].user, runs[me].purpose);
      }
      if Calm(env, fault) {
        OnlyAnswer(old(Model()), c, runs[me].user, runs[me].purpose, runs[me].hash, rows, challenge);
      }
    }

    /** An attempt is paid for before the code is looked at. */
    method PayAndCompare(me: nat, ghost s0: State, env: nat -> seq<Action>, fault: nat -> bool)
        returns (challenge: Option<nat>)
      requires Sound(s0, Model()) && me in runs && runs[me].pc.Burning? && forall k :: Foreign(me, env(k))
      modifies this
      ensures Sound(s0, Model()) && me in runs
      ensures challenge.Some? ==> challenge == Some(old(runs[me]).pc.challenge)
      ensures runs[me] == old(runs[me]).(pc := if challenge.Some? then Applying(challenge.value) else Failed)
      ensures Calm(env, fault) ==>
                var r := old(runs[me]);
                var c := r.pc.challenge;
                && now == old(now) && users == old(users) && resets == old(resets) && log.issued == old(log).issued
                && Tried(old(rows), old(log).issued, c, r.hash, rows, challenge)
    {
      var ok := DrawInTurn(me, s0, env(1), fault(1));
      ghost var paid, over := rows, runs[me].pc.OverLimit?;
      if ok {
        challenge := CompareAndConsume(me, s0, env, fault);
      } else {
        challenge := None;
      }
      if Calm(env, fault) {
        PaidThenSettled(old(rows), paid, old(log).issued, old(runs[me]).pc.challenge, over, ok, old(runs[me]).hash,
                        rows, challenge);
      }
    }

    method CompareAndConsume(me: nat, ghost s0: State, env: nat -> seq<Action>, fault: nat -> bool)
        returns (challenge: Option<nat>)
      requires Sound(s0, Model()) && me in runs && (runs[me].pc.OverLimit? || runs[me].pc.Comparing?)
      requires forall k :: Foreign(me, env(k))
      modifies this
      ensures Sound(s0, Model()) && me in runs
      ensures challenge.Some? ==> challenge == Some(old(runs[me]).pc.challenge)
      ensures runs[me] == old(runs[me]).(pc := if challenge.Some? then Applying(challenge.value) else Failed)
      ensures Calm(env, fault) ==>
                var r := old(runs[me]);
                var c := r.pc.challenge;
                && now == old(now) && users == old(users) && resets == old(resets) && log.issued == old(log).issued
                && Settled(old(rows), old(log).issued, c, r.pc.OverLimit?, r.hash, rows, challenge)
    {
      if runs[me].pc.OverLimit? {
        SpendInTurn(me, s0, env(2), fault(2));
        return None;
      }
      var ok := CompareInTurn(me, s0, env(2), fault(2));
      if !ok {
        return None;
      }
      challenge := Some(runs[me].pc.challenge);
      ok := ConsumeInTurn(me, s0, env(3), fault(3));
      if !ok {
        return None;
      }
    }

    // One statement of a request each, after whatever others do, if the request gets to it.

    method DrawInTurn(me: nat, ghost s0: State, actions: seq<Action>, fault: bool) returns (ok: bool)
      requires Sound(s0, Model()) && me in runs && runs[me].pc.Burning? && Foreign(me, actions)
      modifies this
      ensures Sound(s0, Model()) && me in runs
      ensures runs[me] == old(runs[me]).(pc := runs[me].pc)
      ensures if ok then runs[me].pc.OverLimit? || runs[me].pc.Comparing? else runs[me].pc.Failed?
      ensures ok ==> runs[me].pc.challenge == old(runs[me]).pc.challenge
      ensures actions == [] && !fault ==>
                var c := old(runs[me]).pc.challenge;
                && now == old(now) && users == old(users) && resets == old(resets) && log.issued == old(log).issued
                && PaidFor(old(rows), old(log).issued, c, rows, runs[me].pc.OverLimit?, ok)
    {
      ok := Between(me, s0, actions, fault);
      if ok {
        ghost var before := Model();
        assert RunInv(log, me, runs[me]);
        DrawTicket(me);
        TurnIsSound(s0, before, Burn(me), Model());
        ok := !runs[me].pc.Failed?;
      }
    }

    method SpendInTurn(me: nat, ghost s0: State, actions: seq<Action>, fault: bool)
      requires Sound(s0, Model()) && me in runs && runs[me].pc.OverLimit? && Foreign(me, actions)
      modifies this
      ensures Sound(s0, Model()) && me in runs && runs[me] == old(runs[me]).(pc := Failed)
      ensures actions == [] && !fault ==>
                && now == old(now) && users == old(users) && resets == old(resets) && log.issued == old(log).issued
                && rows == Consumed(old(rows), old(runs[me]).pc.challenge)
    {
      var ok := Between(me, s0, actions, fault);
      if ok {
        ghost var before := Model();
        SpendOverLimit(me);
        TurnIsSound(s0, before, RejectOver(me), Model());
      }
    }

    method CompareInTurn(me: nat, ghost s0: State, actions: seq<Action>, fault: bool) returns (ok: bool)
      requires Sound(s0, Model()) && me in runs && runs[me].pc.Comparing? && Foreign(me, actions)
      modifies this
      ensures Sound(s0, Model()) && me in runs
      ensures runs[me] == old(runs[me]).(pc := if ok then Consuming(old(runs[me]).pc.challenge) else Failed)
      ensures actions == [] && !fault ==>
                var c := old(runs[me]).pc.challenge;
                && now == old(now) && users == old(users) && resets == old(resets) && log.issued == old(log).issued
                && rows == old(rows)
                && (c in old(log).issued ==> ok == (old(log).issued[c].hash == old(runs[me]).hash))
    {
      ok := Between(me, s0, actions, fault);
      if ok {
        ghost var before := Model();
        assert RunInv(log, me, runs[me]);
        ComparingHasRecord(log, runs[me].pc.challenge);
        CompareCode(me);
        TurnIsSound(s0, before, Compare(me), Model());
        ok := !runs[me].pc.Failed?;
      }
    }

    method ConsumeInTurn(me: nat, ghost s0: State, actions: seq<Action>, fault: bool) returns (ok: bool)
      requires Sound(s0, Model()) && me in runs && runs[me].pc.Consuming? && Foreign(me, actions)
      modifies this
      ensures Sound(s0, Model()) && me in runs
      ensures runs[me] == old(runs[me]).(pc := if ok then Applying(old(runs[me]).pc.challenge) else Failed)
      ensures actions == [] && !fault ==>
                var c := old(runs[me]).pc.challenge;
                && now == old(now) && users == old(users) && resets == old(resets) && log.issued == old(log).issued
                && rows == Consumed(old(rows), c) && ok == (c in old(rows) && !old(rows)[c].consumed)
    {
      ok := Between(me, s0, actions, fault);
      if ok {
        ghost var before := Model();
        ConsumeOwn(me);
        TurnIsSound(s0, before, Consume(me), Model());
        ok := !runs[me].pc.Failed?;
      }
    }

    method UseGrant(me: nat, challenge: nat, ghost s0: State, actions: seq<Action>, fault: bool) returns (ok: bool)
      requires Sound(s0, Model()) && me in runs && runs[me].pc == Applying(challenge) && Foreign(me, actions)
      modifies this
      ensures Sound(s0, Model()) && me in runs
      ensures runs[me] == old(runs[me]).(pc := if ok then Done(challenge) else Failed)
      ensures ok ==> challenge in log.granted && log.granted[challenge] == me
      ensures actions == [] && !fault ==>
                && rows == old(rows)
                && var used := if ok then Some(challenge) else None;
                   Used(old(Model()), old(runs[me]), Some(challenge), users, resets, used)
    {
      ok := Between(me, s0, actions, fault);
      if !ok {
        return false;
      }
      ghost var before := Model();
      assert RunInv(log, me, runs[me]);
      ok := ApplyGrant(me);
      TurnIsSound(s0, before, Apply(me), Model());
    }

    /** A code is consumed, and what it grants is used. */
    method Redeem(me: nat, ghost s0: State, env: nat -> seq<Action>, fault: nat -> bool)
        returns (challenge: Option<nat>)
      requires Sound(s0, Model()) && me in runs && runs[me].pc.Reading? && forall k :: Foreign(me, env(k))
      modifies this
      ensures Sound(s0, Model()) && me in runs
      ensures runs[me] == old(runs[me]).(pc := if challenge.Some? then Done(challenge.value) else Failed)
      ensures challenge.Some? ==>
                && challenge.value in log.granted && log.granted[challenge.value] == me
                && ReadBetween(s0, Model(), challenge.value, runs[me].user, runs[me].purpose)
      ensures Calm(env, fault) ==> Redeemed(old(Model()), old(runs[me]), rows, users, resets, challenge)
    {
      ghost var s1, r := Model(), runs[me];
      var answer := ConsumeEmailCode(me, env, fault);
      ghost var s2 := Model();
      SoundTogether(s0, s1, s2);
      if answer.None? {
        if Calm(env, fault) {
          RedeemedBy(s1, s2, r, rows, users, resets, None, None);
        }
        return None;
      }
      ReadAfter(s0, s1, s2, answer.value, r.user, r.purpose);
      assert RunAll(s2, []) == s2;
      var ok := UseGrant(me, answer.value, s2, env(4), fault(4));
      SoundTogether(s0, s2, Model());
      ReadBefore(s0, s2, Model(), answer.value, r.user, r.purpose);
      challenge := if ok then answer else None;
      if Calm(env, fault) {
        RedeemedBy(s1, s2, r, rows, users, resets, answer, challenge);
      }
    }

    method VerifyRecoveryEmail(me: nat, user: nat, hash: nat, env: nat -> seq<Action>, fault: nat -> bool)
      returns (challenge: Option<nat>)
      requires Inv(Model()) && me !in runs && forall k :: Foreign(me, env(k))
      modifies this
      ensures Sound(old(Model()), Model()) && me in runs
      ensures runs[me] == Run(user, Verify, hash, None, if challenge.Some? then Done(challenge.value) else Failed)
      ensures challenge.Some? ==>
                && challenge.value in log.granted && log.granted[challenge.value] == me
                && ReadBetween(old(Model()), Model(), challenge.value, user, Verify)
      ensures Calm(env, fault) ==>
                Redeemed(old(Model()), Run(user, Verify, hash, None, Reading), rows, users, resets, challenge)
    {
      ghost var s0 := Model();
      runs := runs[me := Run(user, Verify, hash, None, Reading)];
      BeginIsSound(s0, BeginVerify(me, user, hash), Model());
      ghost var s1 := Model();
      challenge := Redeem(me, s0, env, fault);
      if Calm(env, fault) {
        RedeemedSame(s0, s1, Run(user, Verify, hash, None, Reading), rows, users, resets, challenge);
      }
    }

    /** The account whose verified recovery address this is, if there is one. */
    method UserByRecoveryEmail(address: string) returns (found: Option<Found>)
      ensures found.Some? ==>
                var f := found.value;
                f.user in users && Recoverable(users[f.user], address)
                && f == Found(f.user, address, users[f.user].proof.value, users[f.user].changes)
      ensures found.None? ==> forall u :: u in users ==> !Recoverable(users[u], address)
    {
      if u :| u in users && Recoverable(users[u], address) {
        return Some(Found(u, address, users[u].proof.value, users[u].changes));
      }
      return None;
    }

    /** Completing a recovery: the account is looked up by its address of the moment, and then a code redeemed. */
    method CompleteEmailRecovery(me: nat, address: string, hash: nat, env: nat -> seq<Action>, fault: nat -> bool)
      returns (challenge: Option<nat>)
      requires Inv(Model()) && me !in runs && forall k :: Foreign(me, env(k))
      modifies this
      ensures Sound(old(Model()), Model())
      ensures (forall u :: u in old(users) ==> !Recoverable(old(users)[u], address)) ==>
                challenge.None? && Model() == old(Model())
      ensures challenge.Some? ==>
                && me in runs && runs[me].pc == Done(challenge.value) && runs[me].purpose == Recover
                    && runs[me].hash == hash
                && runs[me].gate.Some? && runs[me].gate.value.address == address
                && challenge.value in log.granted && log.granted[challenge.value] == me
                && ReadBetween(old(Model()), Model(), challenge.value, runs[me].user, Recover)
      ensures Calm(env, fault) && (exists u :: u in old(users) && Recoverable(old(users)[u], address)) ==>
                && me in runs && IsFound(old(users), runs[me].gate, runs[me].user, address)
                && var r := Run(runs[me].user, Recover, hash, runs[me].gate, Reading);
                   Redeemed(old(Model()), r, rows, users, resets, challenge)
    {
      ghost var s0 := Model();
      var found := UserByRecoveryEmail(address);
      if found.None? {
        assert RunAll(s0, []) == s0;
        return None;
      }
      runs := runs[me := Run(found.value.user, Recover, hash, found, Reading)];
      BeginIsSound(s0, BeginRecover(me, found.value.user, address, hash), Model());
      ghost var s1 := Model();
      challenge := Redeem(me, s0, env, fault);
      if Calm(env, fault) {
        RedeemedSame(s0, s1, Run(found.value.user, Recover, hash, found, Reading), rows, users, resets, challenge);
      }
    }
  }
}
