/** Resumable uploads: cutting a file into parts, collecting the parts, closing the session. */
module Uploads {
  import opened Common
  import opened Ordering

  // -------------------------------------------------------------- planning

  const MAX_PARTS: nat := 10000

  function PartsNeeded(size: nat, partSize: nat): (n: nat)
    requires partSize > 0
  {
    (size + partSize - 1) / partSize
  }

  lemma PartsNeededBounds(size: nat, partSize: nat)
    requires size > 0 && partSize > 0
    ensures PartsNeeded(size, partSize) >= 1
    ensures (PartsNeeded(size, partSize) - 1) * partSize < size <= PartsNeeded(size, partSize) * partSize
  {
    QuotientBounds(size + partSize - 1, partSize);
    Scaled(PartsNeeded(size, partSize), 0, partSize);
  }

  /** No other count of parts covers the file exactly: PartsNeeded is the ceiling of the quotient. */
  lemma PartsNeededUnique(size: nat, partSize: nat, n: nat)
    requires size > 0 && partSize > 0
    requires (n - 1) * partSize < size <= n * partSize
    ensures n == PartsNeeded(size, partSize)
  {
    var m := PartsNeeded(size, partSize);
    PartsNeededBounds(size, partSize);
    Scaled(n, m - 1, partSize);
    Scaled(m, n - 1, partSize);
  }

  /** Doubling the part size roughly halves the count, rounding up. */
  lemma DoublingHalves(size: nat, partSize: nat)
    requires size > 0 && partSize > 0
    ensures PartsNeeded(size, 2 * partSize) == (PartsNeeded(size, partSize) + 1) / 2
  {
    var n := PartsNeeded(size, partSize);
    PartsNeededBounds(size, partSize);
    var half := (n + 1) / 2;
    assert half * (2 * partSize) == (2 * half) * partSize >= n * partSize;
    assert (half - 1) * (2 * partSize) == (2 * half - 2) * partSize <= (n - 1) * partSize;
    PartsNeededUnique(size, 2 * partSize, half);
  }

  function Doubled(partSize: nat, k: nat): nat
    decreases k
  {
    if k == 0 then partSize else Doubled(2 * partSize, k - 1)
  }

  /** The least number of doublings after which the file fits in MAX_PARTS parts. */
  function Doublings(size: nat, partSize: nat): (k: nat)
    requires size > 0 && partSize > 0
    decreases PartsNeeded(size, partSize)
  {
    if PartsNeeded(size, partSize) <= MAX_PARTS then 0
    else
      DoublingHalves(size, partSize);
      1 + Doublings(size, 2 * partSize)
  }

  predicate IsPlan(size: nat, configured: nat, partSize: nat, totalParts: nat)
    requires size > 0 && configured > 0
  {
    partSize > 0
    && partSize == Doubled(configured, Doublings(size, configured))
    && totalParts == PartsNeeded(size, partSize)
  }

  /** The doubling loop of CreateUpload. */
  method PlanParts(size: nat, configured: nat) returns (partSize: nat, totalParts: nat)
    requires size > 0 && configured > 0
    ensures IsPlan(size, configured, partSize, totalParts)
  {
    partSize := configured;
    totalParts := (size + partSize - 1) / partSize;
    if totalParts < 1 {
      totalParts := 1;
    }
    PartsNeededBounds(size, configured);
    while totalParts > MAX_PARTS
      invariant partSize > 0 && totalParts == PartsNeeded(size, partSize)
      invariant Doubled(partSize, Doublings(size, partSize)) == Doubled(configured, Doublings(size, configured))
      decreases totalParts
    {
      DoublingHalves(size, partSize);
      partSize := partSize * 2;
      totalParts := (size + partSize - 1) / partSize;
    }
  }

  /**
   * A plan covers the file in 1 to MAX_PARTS parts; fewer doublings never would have, and a
   * plan that doubled at all still uses more than half of the parts allowed.
   */
  lemma {:induction false} PlanIsLeast(size: nat, configured: nat, partSize: nat, totalParts: nat)
    requires size > 0 && configured > 0 && IsPlan(size, configured, partSize, totalParts)
    ensures 1 <= totalParts <= MAX_PARTS
    ensures (totalParts - 1) * partSize < size <= totalParts * partSize
    ensures forall j {:trigger Doubled(configured, j)} :: 0 <= j < Doublings(size, configured) ==>
              Doubled(configured, j) > 0 && PartsNeeded(size, Doubled(configured, j)) > MAX_PARTS
    ensures partSize != configured ==> totalParts > MAX_PARTS / 2
    decreases PartsNeeded(size, configured)
  {
    PartsNeededBounds(size, partSize);
    if PartsNeeded(size, configured) > MAX_PARTS {
      DoublingHalves(size, configured);
      PlanIsLeast(size, 2 * configured, partSize, totalParts);
      forall j | 0 <= j < Doublings(size, configured)
        ensures Doubled(configured, j) > 0 && PartsNeeded(size, Doubled(configured, j)) > MAX_PARTS
      {
        if j > 0 { assert Doubled(configured, j) == Doubled(2 * configured, j - 1); }
      }
    }
  }

  lemma LargeCount(size: nat, partSize: nat)
    requires size > 0 && partSize > 0 && PartsNeeded(size, partSize) > MAX_PARTS
    ensures MAX_PARTS * partSize < size
  {
    PartsNeededBounds(size, partSize);
    Scaled(MAX_PARTS, PartsNeeded(size, partSize) - 1, partSize);
  }

  /** Up to 2^62, the sum in the ceiling division stays in a 64-bit integer at every step of the loop. */
  lemma {:induction false} PlanFitsInt64(size: nat, configured: nat, j: nat)
    requires 0 < size <= 0x4000_0000_0000_0000 && 0 < configured <= 0x4000_0000_0000_0000
    requires j <= Doublings(size, configured)
    ensures size + Doubled(configured, j) - 1 < 0x8000_0000_0000_0000
    decreases j
  {
    if j > 0 {
      LargeCount(size, configured);
      PlanFitsInt64(size, 2 * configured, j - 1);
    }
  }

  // ------------------------------------------------------------ presigning

  datatype PartUpload = PartUpload(number: nat, size: nat)

  function TotalSize(parts: seq<PartUpload>): nat {
    if parts == [] then 0 else TotalSize(parts[..|parts| - 1]) + parts[|parts| - 1].size
  }

  /** What is left of the file before the part with this number. */
  lemma BeforePart(size: nat, partSize: nat, number: nat)
    requires size > 0 && partSize > 0 && 1 <= number <= PartsNeeded(size, partSize)
    ensures var left := size - (number - 1) * partSize;
            && left - partSize == size - number * partSize
            && if number < PartsNeeded(size, partSize) then left > partSize else 1 <= left <= partSize
  {
    PartsNeededBounds(size, partSize);
    Scaled(number, PartsNeeded(size, partSize) - 1, partSize);
    assert (number - 1) * partSize + partSize == number * partSize;
  }

  /** The presigned parts are numbered from one, tile the file, and only the last may be short. */
  method PresignParts(size: nat, partSize: nat, totalParts: nat) returns (parts: seq<PartUpload>)
    requires size > 0 && partSize > 0 && totalParts == PartsNeeded(size, partSize)
    ensures |parts| == totalParts >= 1
    ensures forall i :: 0 <= i < |parts| ==> parts[i].number == i + 1
    ensures forall i :: 0 <= i < |parts| - 1 ==> parts[i].size == partSize
    ensures 1 <= parts[totalParts - 1].size <= partSize
    ensures TotalSize(parts) == size
  {
    PartsNeededBounds(size, partSize);
    parts := [];
    var remaining := size;
    for number := 1 to totalParts + 1
      invariant |parts| == number - 1
      invariant forall i :: 0 <= i < |parts| ==> parts[i].number == i + 1
      invariant forall i :: 0 <= i < |parts| && i < totalParts - 1 ==> parts[i].size == partSize
      invariant number <= totalParts ==> remaining == size - (number - 1) * partSize
      invariant number > totalParts ==> remaining == 0 && 1 <= parts[totalParts - 1].size <= partSize
      invariant TotalSize(parts) + remaining == size
    {
      BeforePart(size, partSize, number);
      var partial := partSize;
      if remaining < partial {
        partial := remaining;
      }
      remaining := remaining - partial;
      ghost var before := parts;
      parts := parts + [PartUpload(number, partial)];
      assert parts[..|parts| - 1] == before;
    }
  }

  // ------------------------------------------------------------ collecting

  datatype Status = Active | Completed | Aborted | Expired
  datatype Chunk = Chunk(etag: string, size: int)
  datatype Part = Part(number: int, chunk: Chunk)
  datatype Reply = Accepted | NotActive | OutOfRange | BlankTag | Incomplete | Failed | Rejected
  datatype Request = Report(part: Part) | Complete | Abort

  /** What storage and the content check answer once the list has been handed over. */
  datatype Verdict = StorageFailed | ContentRefused | ContentOk

  /** The statement a request has come to, or what it was answered. */
  datatype Pc =
    | Loading
    | Expiring
    | Reporting(part: Part)
    | Listing
    | Assembling
    | Writing(to: Status, reply: Reply)
    | Done(reply: Reply)

  /** `sent` is the part list handed to storage, when the request got that far. */
  datatype Run = Run(request: Request, sent: Option<seq<Part>>, pc: Pc)

  /** One row of media_upload_sessions, its media_chunks rows, and the requests about it. */
  datatype State = State(totalParts: nat, expiresAt: int, now: int, status: Status,
                         chunks: map<int, Chunk>, runs: map<nat, Run>)

  /** A `fault` is a status write that returned an error. */
  datatype Action =
    | Tick(elapsed: nat)
    | Begin(run: nat, request: Request)
    | Load(run: nat)
    | Expire(run: nat, fault: bool)
    | Insert(run: nat)
    | List(run: nat)
    | Assemble(run: nat, verdict: Verdict)
    | Write(run: nat, fault: bool)
    | Fail(run: nat)

  // ------------------------------------------------------------- statements

  function Move(s: State, id: nat, pc: Pc): State
    requires id in s.runs
  {
    s.(runs := s.runs[id := s.runs[id].(pc := pc)])
  }

  function Validated(totalParts: nat, part: Part): Pc {
    if part.number < 1 || part.number > totalParts then Done(OutOfRange)
    else if Blank(part.chunk.etag) then Done(BlankTag)
    else Reporting(part)
  }

  /** Where the row read leads: an abort asks for no status, anything else for an active session in time. */
  function Loaded(s: State, request: Request): Pc {
    if request.Abort? then Writing(Aborted, Accepted)
    else if s.status != Active then Done(NotActive)
    else if s.now > s.expiresAt then Expiring
    else if request.Report? then Validated(s.totalParts, request.part)
    else Listing
  }

  function Parts(chunks: map<int, Chunk>): (parts: seq<Part>)
    ensures |parts| == |chunks|
    ensures forall i :: 0 <= i < |parts| ==> parts[i].number in chunks && parts[i].chunk == chunks[parts[i].number]
  {
    var order := Sorted(chunks.Keys);
    SortedLists(chunks.Keys);
    seq(|order|, i requires 0 <= i < |order| => assert order[i] in order; Part(order[i], chunks[order[i]]))
  }

  function AfterList(s: State, id: nat): State
    requires id in s.runs
  {
    if |s.chunks| != s.totalParts then Move(s, id, Done(Incomplete))
    else s.(runs := s.runs[id := s.runs[id].(sent := Some(Parts(s.chunks)), pc := Assembling)])
  }

  function Judged(verdict: Verdict): Pc {
    match verdict
    case StorageFailed => Done(Failed)
    case ContentRefused => Writing(Aborted, Rejected)
    case ContentOk => Writing(Completed, Accepted)
  }

  /** The write names no expected status; one that fails is ignored, except by an abort. */
  function AfterWrite(s: State, id: nat, fault: bool): State
    requires id in s.runs && s.runs[id].pc.Writing?
  {
    var pc := s.runs[id].pc;
    if fault then Move(s, id, Done(if s.runs[id].request.Abort? then Failed else pc.reply))
    else Move(s.(status := pc.to), id, Done(pc.reply))
  }

  function AfterExpire(s: State, id: nat, fault: bool): State
    requires id in s.runs
  {
    Move(if fault then s else s.(status := Expired), id, Done(NotActive))
  }

  function AfterInsert(s: State, id: nat): State
    requires id in s.runs && s.runs[id].pc.Reporting?
  {
    var part := s.runs[id].pc.part;
    Move(s.(chunks := s.chunks[part.number := part.chunk]), id, Done(Accepted))
  }

  function AfterRun(s: State, a: Action, id: nat): State
    requires id in s.runs
  {
    match (a, s.runs[id].pc)
    case (Load(_), Loading) => Move(s, id, Loaded(s, s.runs[id].request))
    case (Expire(_, fault), Expiring) => AfterExpire(s, id, fault)
    case (Insert(_), Reporting(_)) => AfterInsert(s, id)
    case (List(_), Listing) => AfterList(s, id)
    case (Assemble(_, verdict), Assembling) => Move(s, id, Judged(verdict))
    case (Write(_, fault), Writing(_, _)) => AfterWrite(s, id, fault)
    case (Fail(_), Loading) => Move(s, id, Done(Failed))
    case (Fail(_), Reporting(_)) => Move(s, id, Done(Failed))
    case (Fail(_), Listing) => Move(s, id, Done(Failed))
    case (Fail(_), Assembling) => Move(s, id, Done(Failed))
    case _ => s
  }

  function Step(s: State, a: Action): State {
    match a
    case Tick(elapsed) => s.(now := s.now + elapsed)
    case Begin(run, request) => if run in s.runs then s else s.(runs := s.runs[run := Run(request, None, Loading)])
    case _ => if a.run in s.runs then AfterRun(s, a, a.run) else s
  }

  function RunAll(s: State, actions: seq<Action>): State {
    if actions == [] then s else Step(RunAll(s, actions[..|actions| - 1]), actions[|actions| - 1])
  }

  function Opened(totalParts: nat, expiresAt: int, now: int): State {
    State(totalParts, expiresAt, now, Active, map[], map[])
  }

  // -------------------------------------------------------------- the parts

  predicate InRange(totalParts: nat, chunks: map<int, Chunk>) {
    forall n :: n in chunks ==> 1 <= n <= totalParts && !Blank(chunks[n].etag)
  }

  predicate CompleteList(totalParts: nat, parts: seq<Part>) {
    |parts| == totalParts && forall i :: 0 <= i < |parts| ==> parts[i].number == i + 1 && !Blank(parts[i].chunk.etag)
  }

  /** A report in flight was validated, a status about to be written closes, and an abort only aborts. */
  predicate RunInv(totalParts: nat, r: Run) {
    && (r.pc.Reporting? ==> 1 <= r.pc.part.number <= totalParts && !Blank(r.pc.part.chunk.etag))
    && (r.pc.Writing? ==> r.pc.to == Aborted || (r.pc.to == Completed && r.request.Complete?))
    && (r.request.Abort? ==> r.pc.Loading? || r.pc.Writing? || r.pc.Done?)
    && (r.pc.Listing? || r.pc.Assembling? ==> r.request.Complete?)
    && (r.sent.Some? ==> CompleteList(totalParts, r.sent.value))
  }

  ghost predicate Inv(s: State) {
    InRange(s.totalParts, s.chunks) && forall r :: r in s.runs ==> RunInv(s.totalParts, s.runs[r])
  }

  lemma SortedRange(n: nat)
    ensures |Sorted(UpTo(n))| == n && forall i :: 0 <= i < n ==> Sorted(UpTo(n))[i] == i + 1
  {
    SortedLists(UpTo(n));
    AscendingRange(Sorted(UpTo(n)), n);
  }

  lemma AscendingRange(s: seq<int>, n: nat)
    requires Ascending(s) && forall k :: k in s <==> 1 <= k <= n
    ensures |s| == n && forall i :: 0 <= i < n ==> s[i] == i + 1
  {
    var numbers := seq(n, i => i + 1);
    forall k | k in s ensures k in numbers {
      assert numbers[k - 1] == k;
    }
    AscendingUnique(s, numbers);
  }

  /** A table of parts within range is full exactly when no number is missing; then it lists 1, 2, ... */
  lemma FullTable(totalParts: nat, chunks: map<int, Chunk>)
    requires InRange(totalParts, chunks)
    ensures |chunks| == totalParts <==> forall k :: 1 <= k <= totalParts ==> k in chunks
    ensures |chunks| == totalParts ==> CompleteList(totalParts, Parts(chunks))
  {
    var all := UpTo(totalParts);
    assert |chunks| == |chunks.Keys| && chunks.Keys <= all;
    if |chunks| == totalParts {
      SubsetOfSameSize(chunks.Keys, all);
      SortedRange(totalParts);
    } else {
      assert chunks.Keys != all;
    }
  }

  lemma SubsetOfSameSize<T>(a: set<T>, b: set<T>)
    requires a <= b && |a| == |b|
    ensures a == b
  {
    assert |b - a| == |b| - |a|;
  }

  lemma ListKeepsInv(s: State, id: nat)
    requires Inv(s) && id in s.runs && s.runs[id].pc.Listing?
    ensures Inv(AfterList(s, id))
  {
    FullTable(s.totalParts, s.chunks);
  }

  lemma RunStepKeepsInv(s: State, a: Action, id: nat)
    requires Inv(s) && id in s.runs
    ensures Inv(AfterRun(s, a, id))
  {
    assert RunInv(s.totalParts, s.runs[id]);
    if a.List? && s.runs[id].pc.Listing? {
      ListKeepsInv(s, id);
    } else if a.Insert? && s.runs[id].pc.Reporting? {
      var t := AfterInsert(s, id);
      assert forall r :: r in t.runs ==> RunInv(t.totalParts, t.runs[r]);
    }
  }

  lemma StepKeepsInv(s: State, a: Action)
    requires Inv(s)
    ensures Inv(Step(s, a))
  {
    if !a.Tick? && !a.Begin? && a.run in s.runs {
      RunStepKeepsInv(s, a, a.run);
    }
  }

  lemma {:induction false} RunKeepsInv(s: State, actions: seq<Action>)
    requires Inv(s)
    ensures Inv(RunAll(s, actions))
  {
    if actions != [] {
      RunKeepsInv(s, actions[..|actions| - 1]);
      StepKeepsInv(RunAll(s, actions[..|actions| - 1]), actions[|actions| - 1]);
    }
  }

  /** The part an action writes to the table, if it writes one. */
  function Written(s: State, a: Action): Option<Part> {
    if a.Insert? && a.run in s.runs && s.runs[a.run].pc.Reporting? then Some(s.runs[a.run].pc.part) else None
  }

  /** The last report for a part number to reach the table. */
  function LatestReport(s: State, actions: seq<Action>, number: int): Option<Chunk> {
    if actions == [] then None
    else
      var before := actions[..|actions| - 1];
      match Written(RunAll(s, before), actions[|actions| - 1])
      case Some(part) => if part.number == number then Some(part.chunk) else LatestReport(s, before, number)
      case None => LatestReport(s, before, number)
  }

  function Upserted(chunks: map<int, Chunk>, written: Option<Part>): map<int, Chunk> {
    match written
    case Some(part) => chunks[part.number := part.chunk]
    case None => chunks
  }

  lemma RunChunksAfter(s: State, a: Action, id: nat)
    requires id in s.runs && !a.Tick? && a.run == id
    ensures var t := AfterRun(s, a, id);
            t.totalParts == s.totalParts && t.expiresAt == s.expiresAt && t.chunks == Upserted(s.chunks, Written(s, a))
  {
    match a
    case Begin(_, _) =>
    case Load(_) =>
    case Expire(_, _) =>
    case Insert(_) =>
    case List(_) =>
    case Assemble(_, _) =>
    case Write(_, _) =>
    case Fail(_) =>
  }

  lemma ChunksAfter(s: State, a: Action)
    ensures var t := Step(s, a);
            t.totalParts == s.totalParts && t.expiresAt == s.expiresAt && t.chunks == Upserted(s.chunks, Written(s, a))
  {
    if !a.Tick? && !a.Begin? && a.run in s.runs {
      RunChunksAfter(s, a, a.run);
    }
  }

  /** In every interleaving, the chunk table holds for every number exactly the latest report to reach it. */
  lemma {:induction false} ChunksAreLatestReports(s: State, actions: seq<Action>, number: int)
    requires s.chunks == map[]
    ensures var t := RunAll(s, actions);
            LatestReport(s, actions, number) == if number in t.chunks then Some(t.chunks[number]) else None
  {
    if actions != [] {
      ChunksAreLatestReports(s, actions[..|actions| - 1], number);
      ChunksAfter(RunAll(s, actions[..|actions| - 1]), actions[|actions| - 1]);
    }
  }

  /**
   * The count check in CompleteUpload is a completeness check. Whatever requests are in
   * flight, it passes exactly when a report of every part has reached the table, and then the
   * ordered list read is 1, 2, ... totalParts, each part carrying its latest tag.
   */
  lemma CountCheckMeansComplete(totalParts: nat, expiresAt: int, now: int, actions: seq<Action>)
    ensures var s0 := Opened(totalParts, expiresAt, now);
            var t := RunAll(s0, actions);
            var parts := Parts(t.chunks);
            var latest := n => LatestReport(s0, actions, n);
            && (|parts| == totalParts <==> forall n :: 1 <= n <= totalParts ==> latest(n).Some?)
            && (|parts| == totalParts ==>
                  && CompleteList(totalParts, parts)
                  && forall i :: 0 <= i < totalParts ==> latest(parts[i].number) == Some(parts[i].chunk))
  {
    var s0 := Opened(totalParts, expiresAt, now);
    var t := RunAll(s0, actions);
    forall n ensures LatestReport(s0, actions, n) == if n in t.chunks then Some(t.chunks[n]) else None {
      ChunksAreLatestReports(s0, actions, n);
    }
    RunKeepsInv(s0, actions);
    TermsAreFixed(s0, actions);
    CountCheck(totalParts, t.chunks, n => LatestReport(s0, actions, n));
  }

  lemma CountCheck(totalParts: nat, chunks: map<int, Chunk>, latest: int -> Option<Chunk>)
    requires InRange(totalParts, chunks)
    requires forall n :: latest(n) == if n in chunks then Some(chunks[n]) else None
    ensures |chunks| == totalParts <==> forall n :: 1 <= n <= totalParts ==> latest(n).Some?
    ensures |chunks| == totalParts ==>
              && CompleteList(totalParts, Parts(chunks))
              && forall i :: 0 <= i < totalParts ==> latest(Parts(chunks)[i].number) == Some(Parts(chunks)[i].chunk)
  {
    FullTable(totalParts, chunks);
    forall n ensures latest(n).Some? <==> n in chunks {
    }
  }

  lemma {:induction false} TermsAreFixed(s: State, actions: seq<Action>)
    ensures RunAll(s, actions).totalParts == s.totalParts
  {
    if actions != [] {
      TermsAreFixed(s, actions[..|actions| - 1]);
      ChunksAfter(RunAll(s, actions[..|actions| - 1]), actions[|actions| - 1]);
    }
  }

  /** Every list ever handed to storage names every part once, in order, whatever was reported meanwhile. */
  lemma SentListsAreComplete(totalParts: nat, expiresAt: int, now: int, actions: seq<Action>, run: nat)
    ensures var t := RunAll(Opened(totalParts, expiresAt, now), actions);
            run in t.runs && t.runs[run].sent.Some? ==> CompleteList(totalParts, t.runs[run].sent.value)
  {
    RunKeepsInv(Opened(totalParts, expiresAt, now), actions);
    TermsAreFixed(Opened(totalParts, expiresAt, now), actions);
  }

  // -------------------------------------------------------- closed sessions

  /** A report that read the session while it was active, has yet to write, and will change something. */
  predicate LateReport(s: State, run: nat) {
    && run in s.runs && s.runs[run].pc.Reporting?
    && var part := s.runs[run].pc.part; !(part.number in s.chunks && s.chunks[part.number] == part.chunk)
  }

  lemma SameChunk(chunks: map<int, Chunk>, part: Part)
    requires part.number in chunks && chunks[part.number] == part.chunk
    ensures chunks[part.number := part.chunk] == chunks
  {
  }

  lemma StaysClosed(s: State, a: Action)
    requires Inv(s) && s.status != Active
    ensures Step(s, a).status != Active
  {
    if !a.Tick? && !a.Begin? && a.run in s.runs {
      assert RunInv(s.totalParts, s.runs[a.run]);
    }
  }

  lemma ChangesOnlyLate(s: State, a: Action)
    ensures Step(s, a).chunks != s.chunks <==> a.Insert? && LateReport(s, a.run)
  {
    ChunksAfter(s, a);
    if Written(s, a).Some? && !LateReport(s, a.run) {
      SameChunk(s.chunks, Written(s, a).value);
    }
  }

  lemma NoneLate(s: State, a: Action, run: nat)
    requires s.status != Active && forall r :: !LateReport(s, r)
    ensures !LateReport(Step(s, a), run)
  {
    ChangesOnlyLate(s, a);
    assert !LateReport(s, run);
  }

  /** A session that has left active never returns to it. */
  lemma {:induction false} ClosedSessionsStayClosed(s: State, actions: seq<Action>)
    requires Inv(s) && s.status != Active
    ensures RunAll(s, actions).status != Active
  {
    if actions != [] {
      ClosedSessionsStayClosed(s, actions[..|actions| - 1]);
      RunKeepsInv(s, actions[..|actions| - 1]);
      StaysClosed(RunAll(s, actions[..|actions| - 1]), actions[|actions| - 1]);
    }
  }

  lemma {:induction false} NoLatePart(s: State, actions: seq<Action>)
    requires Inv(s) && s.status != Active && forall r :: !LateReport(s, r)
    ensures RunAll(s, actions).chunks == s.chunks && forall r :: !LateReport(RunAll(s, actions), r)
  {
    if actions != [] {
      var before, last := RunAll(s, actions[..|actions| - 1]), actions[|actions| - 1];
      NoLatePart(s, actions[..|actions| - 1]);
      ClosedSessionsStayClosed(s, actions[..|actions| - 1]);
      ChangesOnlyLate(before, last);
      forall r ensures !LateReport(Step(before, last), r) {
        NoneLate(before, last, r);
      }
    }
  }

  /**
   * The insert asks for no status, so a closed session can still take a part: exactly when a
   * report that read it as active is in flight and its chunk is not what the table holds.
   */
  lemma ClosedTakesOnlyLateParts(s: State)
    requires Inv(s) && s.status != Active
    ensures (exists actions :: RunAll(s, actions).chunks != s.chunks) <==> exists r :: LateReport(s, r)
  {
    if r :| LateReport(s, r) {
      OneStep(s, Insert(r));
      ChangesOnlyLate(s, Insert(r));
      assert RunAll(s, [Insert(r)]).chunks != s.chunks;
    } else {
      forall actions ensures RunAll(s, actions).chunks == s.chunks {
        NoLatePart(s, actions);
      }
    }
  }

  lemma OneStep(s: State, a: Action)
    ensures RunAll(s, [a]) == Step(s, a)
  {
    assert [a][..0] == [];
  }

  /** The status a request in flight is going to write, if it is. */
  function Intends(s: State, a: Action): Option<Status> {
    if a.Write? && !a.fault && a.run in s.runs && s.runs[a.run].pc.Writing? then Some(s.runs[a.run].pc.to)
    else if a.Expire? && !a.fault && a.run in s.runs && s.runs[a.run].pc.Expiring? then Some(Expired)
    else None
  }

  /** A request other than an abort that read the session while it was active and has yet to write its status. */
  predicate Closing(s: State, run: nat) {
    && run in s.runs && !s.runs[run].request.Abort?
    && (s.runs[run].pc.Listing? || s.runs[run].pc.Assembling? || s.runs[run].pc.Writing? || s.runs[run].pc.Expiring?)
  }

  lemma StatusAfter(s: State, a: Action)
    ensures Step(s, a).status == match Intends(s, a) case Some(to) => to case None => s.status
  {
  }

  lemma NoneClosing(s: State, a: Action, run: nat)
    requires Inv(s) && s.status != Active && forall r :: !Closing(s, r)
    ensures !Closing(Step(s, a), run)
  {
    assert !Closing(s, run);
    assert run in s.runs ==> RunInv(s.totalParts, s.runs[run]);
  }

  /** With nothing else in flight, whatever status is written to a closed session is aborted. */
  lemma OnlyAbortsWrite(s: State, a: Action)
    requires Inv(s) && forall r :: !Closing(s, r)
    ensures Intends(s, a).Some? ==> Intends(s, a) == Some(Aborted)
  {
    if Intends(s, a).Some? {
      assert !Closing(s, a.run) && RunInv(s.totalParts, s.runs[a.run]);
    }
  }

  predicate Aborting(s: State, actions: seq<Action>, i: nat)
    requires i < |actions|
  {
    Intends(RunAll(s, actions[..i]), actions[i]) == Some(Aborted)
  }

  /**
   * Nor does an abort ask for a status. Once a session is closed and nothing else that read it
   * as active is in flight, its status changes exactly when an abort writes and it was not
   * aborted yet: a completed upload can still become an aborted one, and that is all.
   */
  lemma {:induction false} OnlyAbortsReopen(s: State, actions: seq<Action>)
    requires Inv(s) && s.status != Active && forall r :: !Closing(s, r)
    ensures forall r :: !Closing(RunAll(s, actions), r)
    ensures var t := RunAll(s, actions);
            && (t.status == s.status || t.status == Aborted)
            && (t.status != s.status <==>
                  s.status != Aborted && exists i :: 0 <= i < |actions| && Aborting(s, actions, i))
  {
    if actions != [] {
      var n := |actions| - 1;
      var before, last := RunAll(s, actions[..n]), actions[n];
      OnlyAbortsReopen(s, actions[..n]);
      RunKeepsInv(s, actions[..n]);
      ClosedSessionsStayClosed(s, actions[..n]);
      StatusAfter(before, last);
      OnlyAbortsWrite(before, last);
      forall r ensures !Closing(Step(before, last), r) {
        NoneClosing(before, last, r);
      }
      assert Aborting(s, actions, n) <==> Intends(before, last) == Some(Aborted);
      forall i | 0 <= i < n ensures Aborting(s, actions, i) <==> Aborting(s, actions[..n], i) {
        assert actions[..n][..i] == actions[..i];
      }
    }
  }

  ghost predicate Reaches(s: State, t: State) {
    exists actions :: RunAll(s, actions) == t
  }

  lemma ReachesNext(s: State, t: State, a: Action)
    requires Reaches(s, t)
    ensures Reaches(s, Step(t, a))
  {
    var actions :| RunAll(s, actions) == t;
    assert (actions + [a])[..|actions|] == actions;
    assert RunAll(s, actions + [a]) == Step(t, a);
  }

  // --------------------------------------------------- completing once closed

  /** The part is recorded, or a report of it that read the session as active has yet to be. */
  ghost predicate Covered(s: State, number: int) {
    number in s.chunks || exists r :: Brings(s, r, number)
  }

  predicate Brings(s: State, run: nat, number: int) {
    run in s.runs && s.runs[run].pc.Reporting? && s.runs[run].pc.part.number == number
  }

  /** A completion that read the session as active and can still end by writing that it is completed. */
  ghost predicate CanComplete(s: State, run: nat) {
    && run in s.runs
    && match s.runs[run].pc
       case Writing(to, _) => to == Completed
       case Assembling => true
       case Listing => forall n :: 1 <= n <= s.totalParts ==> Covered(s, n)
       case _ => false
  }

  /** A closed session takes on no new reports, so what is not covered never will be. */
  lemma CoverShrinks(s: State, a: Action, number: int)
    requires s.status != Active && !Covered(s, number)
    ensures !Covered(Step(s, a), number)
  {
    forall r ensures !Brings(Step(s, a), r, number) {
      assert !Brings(s, r, number);
    }
    assert a.Insert? ==> !Brings(s, a.run, number);
  }

  lemma NoneCanComplete(s: State, a: Action, run: nat)
    requires Inv(s) && s.status != Active && !CanComplete(s, run)
    ensures !CanComplete(Step(s, a), run)
  {
    if run in s.runs && s.runs[run].pc.Listing? {
      var n :| 1 <= n <= s.totalParts && !Covered(s, n);
      CoverShrinks(s, a, n);
      if a.List? && a.run == run && |s.chunks| == s.totalParts {
        FullTable(s.totalParts, s.chunks);
      }
    }
  }

  lemma {:induction false} StaysUncompleted(s: State, actions: seq<Action>)
    requires Inv(s) && s.status != Active && s.status != Completed && forall r :: !CanComplete(s, r)
    ensures var t := RunAll(s, actions); t.status != Completed && forall r :: !CanComplete(t, r)
  {
    if actions != [] {
      var before, last := RunAll(s, actions[..|actions| - 1]), actions[|actions| - 1];
      StaysUncompleted(s, actions[..|actions| - 1]);
      RunKeepsInv(s, actions[..|actions| - 1]);
      ClosedSessionsStayClosed(s, actions[..|actions| - 1]);
      StatusAfter(before, last);
      assert last.Write? ==> !CanComplete(before, last.run);
      forall r ensures !CanComplete(Step(before, last), r) {
        NoneCanComplete(before, last, r);
      }
    }
  }

  lemma WritesCompleted(s: State, t: State, run: nat)
    requires Reaches(s, t) && run in t.runs && t.runs[run].pc.Writing? && t.runs[run].pc.to == Completed
    ensures exists u :: Reaches(s, u) && u.status == Completed
  {
    ReachesNext(s, t, Write(run, false));
  }

  lemma AssemblesAndWrites(s: State, t: State, run: nat)
    requires Reaches(s, t) && run in t.runs && t.runs[run].pc.Assembling?
    ensures exists u :: Reaches(s, u) && u.status == Completed
  {
    ReachesNext(s, t, Assemble(run, ContentOk));
    WritesCompleted(s, Step(t, Assemble(run, ContentOk)), run);
  }

  function Missing(s: State): set<int> {
    set n | 1 <= n <= s.totalParts && n !in s.chunks
  }

  /** The reports in flight land one by one, and then the list is complete. */
  lemma {:induction false} ListsAndCompletes(s: State, t: State, run: nat)
    requires Reaches(s, t) && Inv(t) && run in t.runs && t.runs[run].pc.Listing?
    requires forall n :: 1 <= n <= t.totalParts ==> Covered(t, n)
    ensures exists u :: Reaches(s, u) && u.status == Completed
    decreases |Missing(t)|
  {
    if n :| n in Missing(t) {
      assert Covered(t, n);
      var r :| Brings(t, r, n);
      var u := Step(t, Insert(r));
      StepKeepsInv(t, Insert(r));
      ReachesNext(s, t, Insert(r));
      forall m | 1 <= m <= t.totalParts ensures Covered(u, m) {
        assert Covered(t, m);
        if m !in u.chunks {
          var q :| Brings(t, q, m);
          assert Brings(u, q, m);
        }
      }
      assert Missing(u) == Missing(t) - {n};
      ListsAndCompletes(s, u, run);
    } else {
      assert forall n :: 1 <= n <= t.totalParts && n !in t.chunks ==> n in Missing(t);
      FullTable(t.totalParts, t.chunks);
      ReachesNext(s, t, List(run));
      AssemblesAndWrites(s, Step(t, List(run)), run);
    }
  }

  /**
   * When an aborted or expired session can still become a completed one: exactly when a
   * completion that read it as active is about to write, or is past its list, or has yet to read
   * one of which every part is recorded or in flight.
   */
  lemma ClosedCompletesOnlyInFlight(s: State)
    requires Inv(s) && s.status != Active && s.status != Completed
    ensures (exists t :: Reaches(s, t) && t.status == Completed) <==> exists r :: CanComplete(s, r)
  {
    if r :| CanComplete(s, r) {
      assert RunAll(s, []) == s;
      match s.runs[r].pc {
        case Writing(_, _) => WritesCompleted(s, s, r);
        case Assembling => AssemblesAndWrites(s, s, r);
        case Listing => ListsAndCompletes(s, s, r);
      }
    } else {
      forall t | Reaches(s, t) ensures t.status != Completed {
        var actions :| RunAll(s, actions) == t;
        StaysUncompleted(s, actions);
      }
    }
  }

  // --------------------------------------------------------------- witnesses

  /** A part recorded in a session already aborted, and then the same session completed. */
  lemma ClosedSessionTakesPartAndCompletes(s0: State, part: Part)
    requires s0 == Opened(1, 100, 0) && part == Part(1, Chunk("tag", 5))
    ensures exists t, u ::
              && Reaches(s0, t) && t.status == Aborted && t.chunks == map[]
              && Reaches(t, u) && u.status == Completed && u.chunks == map[1 := part.chunk]
  {
    assert !IsSpace('t') && 't' in part.chunk.etag;
    assert RunAll(s0, []) == s0;
    var s1, s2 := Step(s0, Begin(0, Report(part))), Step(Step(s0, Begin(0, Report(part))), Load(0));
    ReachesNext(s0, s0, Begin(0, Report(part)));
    ReachesNext(s0, s1, Load(0));
    var s3, s4 := Step(s2, Begin(1, Complete)), Step(Step(s2, Begin(1, Complete)), Load(1));
    ReachesNext(s0, s2, Begin(1, Complete));
    ReachesNext(s0, s3, Load(1));
    assert s4.runs == map[0 := Run(Report(part), None, Reporting(part)), 1 := Run(Complete, None, Listing)];
    AbortedMeanwhile(s0, s4, part);
  }

  lemma AbortedMeanwhile(s0: State, s4: State, part: Part)
    requires Reaches(s0, s4) && s4.totalParts == 1 && s4.chunks == map[] && part.number == 1
    requires s4.runs == map[0 := Run(Report(part), None, Reporting(part)), 1 := Run(Complete, None, Listing)]
    ensures exists t, u ::
              && Reaches(s0, t) && t.status == Aborted && t.chunks == map[]
              && Reaches(t, u) && u.status == Completed && u.chunks == map[1 := part.chunk]
  {
    var s5, s6 := Step(s4, Begin(2, Abort)), Step(Step(s4, Begin(2, Abort)), Load(2));
    ReachesNext(s0, s4, Begin(2, Abort));
    ReachesNext(s0, s5, Load(2));
    var t := Step(s6, Write(2, false));
    ReachesNext(s0, s6, Write(2, false));
    assert t.runs[0].pc == Reporting(part) && t.runs[1].pc == Listing && t.status == Aborted;
    LateCompletion(t, part);
  }

  /** A session of any status, a completed one included, is aborted by the next abort to run alone. */
  lemma AnySessionCanBeAborted(s: State, run: nat)
    requires run !in s.runs
    ensures exists t :: Reaches(s, t) && t.status == Aborted && t.chunks == s.chunks
  {
    var s1, s2 := Step(s, Begin(run, Abort)), Step(Step(s, Begin(run, Abort)), Load(run));
    assert RunAll(s, []) == s;
    ReachesNext(s, s, Begin(run, Abort));
    ReachesNext(s, s1, Load(run));
    ReachesNext(s, s2, Write(run, false));
    assert s2.runs[run].pc == Writing(Aborted, Accepted);
    assert Step(s2, Write(run, false)).status == Aborted && Step(s2, Write(run, false)).chunks == s.chunks;
  }

  lemma LateCompletion(t: State, part: Part)
    requires 0 in t.runs && t.runs[0].pc == Reporting(part) && 1 in t.runs && t.runs[1].pc == Listing
    requires t.totalParts == 1 && t.chunks == map[] && part.number == 1
    ensures exists u :: Reaches(t, u) && u.status == Completed && u.chunks == map[1 := part.chunk]
  {
    assert RunAll(t, []) == t;
    var t1 := Step(t, Insert(0));
    ReachesNext(t, t, Insert(0));
    assert t1.chunks == map[1 := part.chunk] && |t1.chunks| == 1 && t1.runs[1].pc == Listing;
    var t2 := Step(t1, List(1));
    ReachesNext(t, t1, List(1));
    assert t2.runs[1].pc == Assembling && t2.chunks == t1.chunks;
    CompletionWrites(t, t2);
  }

  lemma CompletionWrites(t: State, t2: State)
    requires Reaches(t, t2) && 1 in t2.runs && t2.runs[1].pc == Assembling
    ensures exists u :: Reaches(t, u) && u.status == Completed && u.chunks == t2.chunks
  {
    var t3 := Step(t2, Assemble(1, ContentOk));
    ReachesNext(t, t2, Assemble(1, ContentOk));
    var u := Step(t3, Write(1, false));
    ReachesNext(t, t3, Write(1, false));
    assert t3.runs[1].pc == Writing(Completed, Accepted);
  }

  // ------------------------------------------------------------ interference

  /** Actions of everybody else, as seen by one request. */
  predicate Foreign(me: nat, actions: seq<Action>) {
    forall a :: a in actions ==> a.Tick? || a.run != me
  }

  lemma ForeignStep(s: State, a: Action, me: nat)
    requires me in s.runs && (a.Tick? || a.run != me)
    ensures me in Step(s, a).runs && Step(s, a).runs[me] == s.runs[me]
  {
  }

  lemma {:induction false} ForeignKeepsRun(s: State, actions: seq<Action>, me: nat)
    requires me in s.runs && Foreign(me, actions)
    ensures me in RunAll(s, actions).runs && RunAll(s, actions).runs[me] == s.runs[me]
  {
    if actions != [] {
      ForeignKeepsRun(s, actions[..|actions| - 1], me);
      ForeignStep(RunAll(s, actions[..|actions| - 1]), actions[|actions| - 1], me);
    }
  }

  lemma {:induction false} RunAllAppend(s: State, a: seq<Action>, b: seq<Action>)
    ensures RunAll(s, a + b) == RunAll(RunAll(s, a), b)
  {
    if b == [] {
      assert a + b == a;
    } else {
      assert (a + b)[..|a + b| - 1] == a + b[..|b| - 1];
      RunAllAppend(s, a, b[..|b| - 1]);
    }
  }

  /** t is reached from s by steps of the machine, and satisfies its invariant. */
  ghost predicate Sound(s: State, t: State) {
    Reaches(s, t) && Inv(t)
  }

  lemma TurnIsSound(s: State, t: State, a: Action, u: State)
    requires Sound(s, t) && u == Step(t, a)
    ensures Sound(s, u)
  {
    ReachesNext(s, t, a);
    StepKeepsInv(t, a);
  }

  lemma OthersAreSound(s: State, t: State, actions: seq<Action>, me: nat)
    requires Sound(s, t) && me in t.runs && Foreign(me, actions)
    ensures Sound(s, RunAll(t, actions))
    ensures me in RunAll(t, actions).runs && RunAll(t, actions).runs[me] == t.runs[me]
  {
    var before :| RunAll(s, before) == t;
    RunAllAppend(s, before, actions);
    RunKeepsInv(t, actions);
    ForeignKeepsRun(t, actions, me);
  }

  lemma BeginIsSound(s: State, me: nat, request: Request)
    requires Inv(s) && me !in s.runs
    ensures Sound(s, s.(runs := s.runs[me := Run(request, None, Loading)]))
  {
    assert RunAll(s, []) == s;
    TurnIsSound(s, s, Begin(me, request), s.(runs := s.runs[me := Run(request, None, Loading)]));
  }

  // ------------------------------------------------------------- the session

  /** The reply a completion is owed once its list has been sent. */
  function Called(verdict: Verdict): Reply {
    match verdict
    case StorageFailed => Failed
    case ContentRefused => Rejected
    case ContentOk => Accepted
  }

  predicate AllRecorded(totalParts: nat, chunks: map<int, Chunk>) {
    forall n :: 1 <= n <= totalParts ==> n in chunks
  }

  /** At some moment between the two states a part had not been recorded. */
  ghost predicate MissingBetween(s: State, u: State) {
    exists t :: Reaches(s, t) && Reaches(t, u) && !AllRecorded(t.totalParts, t.chunks)
  }

  lemma ReachesThrough(s: State, t: State, u: State)
    requires Reaches(s, t) && Reaches(t, u)
    ensures Reaches(s, u)
  {
    var a :| RunAll(s, a) == t;
    var b :| RunAll(t, b) == u;
    RunAllAppend(s, a, b);
  }

  /** A part once recorded stays so. */
  lemma RecordedStay(s: State, a: Action)
    ensures s.chunks.Keys <= Step(s, a).chunks.Keys
  {
    ChunksAfter(s, a);
  }

  lemma {:induction false} RecordedStayOverRun(s: State, actions: seq<Action>)
    ensures s.chunks.Keys <= RunAll(s, actions).chunks.Keys && RunAll(s, actions).totalParts == s.totalParts
  {
    TermsAreFixed(s, actions);
    if actions != [] {
      RecordedStayOverRun(s, actions[..|actions| - 1]);
      RecordedStay(RunAll(s, actions[..|actions| - 1]), actions[|actions| - 1]);
    }
  }

  /** One row of media_upload_sessions with its media_chunks rows. */
  class Session {
    const totalParts: nat
    const expiresAt: int
    var now: int
    var status: Status
    var chunks: map<int, Chunk>
    var runs: map<nat, Run>

    ghost function Model(): State
      reads this
    {
      State(totalParts, expiresAt, now, status, chunks, runs)
    }

    constructor (totalParts: nat, expiresAt: int, now: int)
      ensures Model() == Opened(totalParts, expiresAt, now)
    {
      this.totalParts, this.expiresAt, this.now := totalParts, expiresAt, now;
      status, chunks, runs := Active, map[], map[];
    }

    method Perform(actions: seq<Action>)
      modifies this
      ensures Model() == RunAll(old(Model()), actions)
    {
      for i := 0 to |actions|
        invariant Model() == RunAll(old(Model()), actions[..i])
      {
        ChunksAfter(Model(), actions[i]);
        var t := Step(State(totalParts, expiresAt, now, status, chunks, runs), actions[i]);
        now, status, chunks, runs := t.now, t.status, t.chunks, t.runs;
        assert actions[..i + 1][..i] == actions[..i];
      }
      assert actions[..|actions|] == actions;
    }

    /** What other requests do between two statements of one. */
    method Others(me: nat, ghost s0: State, actions: seq<Action>)
      requires Sound(s0, Model()) && me in runs && Foreign(me, actions)
      modifies this
      ensures Model() == RunAll(old(Model()), actions)
      ensures Sound(s0, Model()) && me in runs && runs[me] == old(runs[me])
    {
      OthersAreSound(s0, Model(), actions, me);
      Perform(actions);
    }

    /** One statement of this request: its effect on the row, and where it leads. */
    method Turn(me: nat, ghost s0: State, ghost a: Action, newStatus: Status, newChunks: map<int, Chunk>, run: Run)
      requires Sound(s0, Model()) && me in runs
      requires Step(Model(), a) == Model().(status := newStatus, chunks := newChunks, runs := runs[me := run])
      modifies this`status, this`chunks, this`runs
      ensures Model() == Step(old(Model()), a) && Sound(s0, Model())
      ensures status == newStatus && chunks == newChunks && me in runs && runs[me] == run
    {
      ghost var before := Model();
      status, chunks, runs := newStatus, newChunks, runs[me := run];
      TurnIsSound(s0, before, a, Model());
    }

    /** Reads the row; a late session is expired by a second statement, whose error is ignored. */
    method LoadActive(me: nat, ghost s0: State, env: seq<Action>, fault: bool) returns (ok: bool)
      requires Sound(s0, Model()) && me in runs && Foreign(me, env)
      requires runs[me] == Run(runs[me].request, None, Loading) && !runs[me].request.Abort?
      modifies this
      ensures Sound(s0, Model()) && me in runs
      ensures ok <==> old(status) == Active && old(now) <= expiresAt
      ensures ok ==> Model() == Step(old(Model()), Load(me))
      ensures !ok ==> runs[me] == old(runs[me]).(pc := Done(NotActive))
      ensures old(status) == Active && !ok && !fault ==> status == Expired
    {
      var run := runs[me];
      if status != Active {
        Turn(me, s0, Load(me), status, chunks, run.(pc := Done(NotActive)));
        return false;
      }
      if now > expiresAt {
        Turn(me, s0, Load(me), status, chunks, run.(pc := Expiring));
        Others(me, s0, env);
        var to := if fault then status else Expired;
        Turn(me, s0, Expire(me, fault), to, chunks, run.(pc := Done(NotActive)));
        return false;
      }
      var next := if run.request.Report? then Validated(totalParts, run.request.part) else Listing;
      Turn(me, s0, Load(me), status, chunks, run.(pc := next));
      return true;
    }

    /** A report, with anything happening between its read of the session and its insert. */
    method RecordPart(me: nat, part: Part, env: seq<Action>, fault: bool) returns (reply: Reply)
      requires Inv(Model()) && me !in runs && Foreign(me, env)
      modifies this
      ensures Sound(old(Model()), Model()) && me in runs && runs[me] == Run(Report(part), None, Done(reply))
      ensures reply == NotActive <==> !(old(status) == Active && old(now) <= expiresAt)
      ensures reply == Accepted <==>
                && old(status) == Active && old(now) <= expiresAt && !fault
                && 1 <= part.number <= totalParts && !Blank(part.chunk.etag)
      ensures reply == Accepted ==> part.number in chunks && chunks[part.number] == part.chunk
      ensures reply == OutOfRange <==> reply != NotActive && (part.number < 1 || part.number > totalParts)
      ensures reply == BlankTag <==>
                reply != NotActive && 1 <= part.number <= totalParts && Blank(part.chunk.etag)
      ensures reply == Failed ==> fault
    {
      ghost var s0 := Model();
      BeginIsSound(s0, me, Report(part));
      runs := runs[me := Run(Report(part), None, Loading)];
      var ok := LoadActive(me, s0, env, fault);
      if !ok {
        return NotActive;
      }
      if part.number < 1 || part.number > totalParts {
        return OutOfRange;
      }
      if Blank(part.chunk.etag) {
        return BlankTag;
      }
      reply := InsertPart(me, s0, part, env, fault);
    }

    /** The last statement of a report, after whatever others do. */
    method InsertPart(me: nat, ghost s0: State, part: Part, env: seq<Action>, fault: bool) returns (reply: Reply)
      requires Sound(s0, Model()) && me in runs && runs[me] == Run(Report(part), None, Reporting(part))
      requires Foreign(me, env)
      modifies this
      ensures Sound(s0, Model()) && me in runs && runs[me] == Run(Report(part), None, Done(reply))
      ensures reply == if fault then Failed else Accepted
      ensures reply == Accepted ==> part.number in chunks && chunks[part.number] == part.chunk
    {
      Others(me, s0, env);
      if fault {
        Turn(me, s0, Fail(me), status, chunks, Run(Report(part), None, Done(Failed)));
        return Failed;
      }
      Turn(me, s0, Insert(me), status, chunks[part.number := part.chunk], Run(Report(part), None, Done(Accepted)));
      return Accepted;
    }

    /** The parts as they stand, if none is missing. */
    method ListParts(me: nat, ghost s0: State, env: seq<Action>) returns (sent: Option<seq<Part>>)
      requires Sound(s0, Model()) && me in runs && runs[me] == Run(Complete, None, Listing) && Foreign(me, env)
      modifies this
      ensures Sound(s0, Model()) && me in runs
      ensures runs[me] == if sent.Some? then Run(Complete, sent, Assembling) else Run(Complete, None, Done(Incomplete))
      ensures if |chunks| == totalParts then sent == Some(Parts(chunks)) else sent.None?
      ensures sent.Some? ==> CompleteList(totalParts, sent.value)
      ensures old(chunks).Keys <= chunks.Keys && (sent.Some? <==> AllRecorded(totalParts, chunks))
    {
      RecordedStayOverRun(Model(), env);
      Others(me, s0, env);
      FullTable(totalParts, chunks);
      if |chunks| != totalParts {
        Turn(me, s0, List(me), status, chunks, Run(Complete, None, Done(Incomplete)));
        return None;
      }
      sent := Some(Parts(chunks));
      Turn(me, s0, List(me), status, chunks, Run(Complete, sent, Assembling));
      assert RunInv(totalParts, runs[me]);
    }

    /** A completion, with anything happening between its statements. */
    method CompleteUpload(me: nat, verdict: Verdict, env: nat -> seq<Action>, fault: bool) returns (reply: Reply)
      requires Inv(Model()) && me !in runs && forall k :: Foreign(me, env(k))
      modifies this
      ensures Sound(old(Model()), Model()) && me in runs && runs[me].request == Complete && runs[me].pc == Done(reply)
      ensures reply == NotActive <==> !(old(status) == Active && old(now) <= expiresAt)
      ensures reply == Accepted || reply == Rejected ==>
                runs[me].sent.Some? && CompleteList(totalParts, runs[me].sent.value)
      ensures reply == Accepted && !fault ==> status == Completed
      ensures reply == Rejected && !fault ==> status == Aborted
      ensures reply == NotActive || reply == Incomplete || reply == Called(verdict)
      ensures reply == Incomplete ==> MissingBetween(old(Model()), Model())
      ensures old(status) == Active && old(now) <= expiresAt && AllRecorded(totalParts, old(chunks)) ==>
                reply == Called(verdict)
    {
      ghost var s0 := Model();
      BeginIsSound(s0, me, Complete);
      runs := runs[me := Run(Complete, None, Loading)];
      var ok := LoadActive(me, s0, env(0), fault);
      if !ok {
        return NotActive;
      }
      var sent := ListParts(me, s0, env(1));
      if sent.None? {
        assert RunAll(Model(), []) == Model();
        assert !AllRecorded(Model().totalParts, Model().chunks);
        return Incomplete;
      }
      Others(me, s0, env(2));
      reply := Close(me, s0, sent, verdict, env(3), fault);
    }

    /** What storage and the content check decide, and the status that follows. */
    method Close(me: nat, ghost s0: State, sent: Option<seq<Part>>, verdict: Verdict, env: seq<Action>, fault: bool)
      returns (reply: Reply)
      requires Sound(s0, Model()) && me in runs && runs[me] == Run(Complete, sent, Assembling) && Foreign(me, env)
      modifies this
      ensures Sound(s0, Model()) && me in runs && runs[me] == Run(Complete, sent, Done(reply))
      ensures reply == Called(verdict)
      ensures reply == Accepted && !fault ==> status == Completed
      ensures reply == Rejected && !fault ==> status == Aborted
    {
      Turn(me, s0, Assemble(me, verdict), status, chunks, Run(Complete, sent, Judged(verdict)));
      if verdict == StorageFailed {
        return Failed;
      }
      Others(me, s0, env);
      var to := if verdict == ContentOk then Completed else Aborted;
      reply := if verdict == ContentOk then Accepted else Rejected;
      Turn(me, s0, Write(me, fault), if fault then status else to, chunks, Run(Complete, sent, Done(reply)));
    }

    /** An abort reads the row for its storage key and asks nothing of its status. */
    method AbortUpload(me: nat, env: seq<Action>, fault: bool) returns (reply: Reply)
      requires Inv(Model()) && me !in runs && Foreign(me, env)
      modifies this
      ensures Sound(old(Model()), Model()) && me in runs && runs[me] == Run(Abort, None, Done(reply))
      ensures if fault then reply == Failed else reply == Accepted && status == Aborted
    {
      ghost var s0 := Model();
      BeginIsSound(s0, me, Abort);
      runs := runs[me := Run(Abort, None, Loading)];
      Turn(me, s0, Load(me), status, chunks, Run(Abort, None, Writing(Aborted, Accepted)));
      Others(me, s0, env);
      reply := if fault then Failed else Accepted;
      Turn(me, s0, Write(me, fault), if fault then status else Aborted, chunks, Run(Abort, None, Done(reply)));
    }
  }
}
