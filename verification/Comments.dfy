/** Channel comments: the discussion link, and the race to mirror each post into the linked group. */
module Comments {
  import opened Common

  datatype Channel = Channel(discussion: Option<nat>, commentsEnabled: bool)

  /** Which post a mirror copies, and which run sent it (every send carries a client id of its own). */
  datatype Origin = Origin(post: nat, run: nat)

  datatype Message = Message(chat: nat, origin: Option<Origin>, deleted: bool)

  /** A row of channel_post_comments, keyed by post. */
  datatype Thread = Thread(channel: nat, discussion: nat, root: nat)

  /** The statement a run has come to, or how it ended. */
  datatype Pc = Resolve | Lookup | Read | Send | Claim | Withdraw | Reread | Done(thread: Thread) | Failed

  /**
   * One request for a post's comments, or one observation of it going out. `won` and
   * `withdrawn` say that its claim or its withdrawal took effect, `dropped` that one of the
   * two returned an error instead.
   */
  datatype Run = Run(post: nat, channel: nat, observer: bool, discussion: nat, mirror: Option<nat>,
                     won: bool, withdrawn: bool, dropped: bool, pc: Pc)

  datatype State = State(channels: map<nat, Channel>, groups: map<nat, Option<nat>>,
                         messages: map<nat, Message>, nextId: nat, threads: map<nat, Thread>, runs: map<nat, Run>)

  datatype Action =
    | Link(channel: nat, group: nat)
    | Unlink(channel: nat)
    | SetComments(channel: nat, enabled: bool)
    | Post(chat: nat)
    | Delete(message: nat)
    | Start(run: nat, post: nat, channel: nat, observer: bool)
    | Advance(run: nat, fault: bool)

  // ------------------------------------------------------------- statements

  datatype LinkResult = Linked | NotAChannel | NotAGroup | AlreadyLinked | NoDiscussionGroup

  function LinkOutcome(s: State, channel: nat, group: nat): LinkResult {
    if channel !in s.channels then NotAChannel
    else if group !in s.groups then NotAGroup
    else if s.channels[channel].discussion.Some? && s.channels[channel].discussion != Some(group) then AlreadyLinked
    else if s.groups[group].Some? && s.groups[group] != Some(channel) then AlreadyLinked
    else Linked
  }

  function AfterLink(s: State, channel: nat, group: nat): State {
    if LinkOutcome(s, channel, group) != Linked then s
    else s.(channels := s.channels[channel := s.channels[channel].(discussion := Some(group))],
            groups := s.groups[group := Some(channel)])
  }

  function AfterUnlink(s: State, channel: nat): State {
    if channel !in s.channels || s.channels[channel].discussion.None? then s
    else
      var group := s.channels[channel].discussion.value;
      s.(channels := s.channels[channel := s.channels[channel].(discussion := None)],
         groups := if group in s.groups then s.groups[group := None] else s.groups)
  }

  function Move(s: State, id: nat, r: Run): State {
    s.(runs := s.runs[id := r])
  }

  function AfterResolve(s: State, id: nat, fault: bool): State
    requires id in s.runs
  {
    var r := s.runs[id];
    if fault || r.channel !in s.channels
       || s.channels[r.channel].discussion.None? || !s.channels[r.channel].commentsEnabled
    then Move(s, id, r.(pc := Failed))
    else
      var discussion := s.channels[r.channel].discussion.value;
      Move(s, id, r.(discussion := discussion, pc := if r.observer then Read else Lookup))
  }

  function AfterLookup(s: State, id: nat, fault: bool): State
    requires id in s.runs
  {
    var r := s.runs[id];
    Move(s, id, r.(pc := if fault then Failed else if r.post in s.threads then Done(s.threads[r.post]) else Read))
  }

  predicate Mirrorable(s: State, post: nat, channel: nat) {
    post in s.messages && s.messages[post].chat == channel && !s.messages[post].deleted
  }

  function AfterRead(s: State, id: nat, fault: bool): State
    requires id in s.runs
  {
    var r := s.runs[id];
    Move(s, id, r.(pc := if fault || !Mirrorable(s, r.post, r.channel) then Failed else Send))
  }

  function AfterSend(s: State, id: nat, fault: bool): State
    requires id in s.runs
  {
    var r := s.runs[id];
    if fault then Move(s, id, r.(pc := Failed))
    else
      var mirror := Message(r.discussion, Some(Origin(r.post, id)), false);
      Move(s.(messages := s.messages[s.nextId := mirror], nextId := s.nextId + 1),
           id, r.(mirror := Some(s.nextId), pc := Claim))
  }

  function AfterClaim(s: State, id: nat, fault: bool): State
    requires id in s.runs && s.runs[id].mirror.Some?
  {
    var r := s.runs[id];
    if fault then Move(s, id, r.(dropped := true, pc := Failed))
    else if r.post in s.threads then Move(s, id, r.(pc := Withdraw))
    else
      var thread := Thread(r.channel, r.discussion, r.mirror.value);
      Move(s.(threads := s.threads[r.post := thread]), id, r.(won := true, pc := Done(thread)))
  }

  function Tombstoned(messages: map<nat, Message>, m: nat): map<nat, Message> {
    if m in messages then messages[m := messages[m].(deleted := true)] else messages
  }

  /** A withdrawal that fails is only logged: the run goes on. */
  function AfterWithdraw(s: State, id: nat, fault: bool): State
    requires id in s.runs && s.runs[id].mirror.Some?
  {
    var r := s.runs[id];
    if fault then Move(s, id, r.(dropped := true, pc := Reread))
    else Move(s.(messages := Tombstoned(s.messages, r.mirror.value)), id, r.(withdrawn := true, pc := Reread))
  }

  function AfterReread(s: State, id: nat, fault: bool): State
    requires id in s.runs
  {
    var r := s.runs[id];
    Move(s, id, r.(pc := if fault || r.post !in s.threads then Failed else Done(s.threads[r.post])))
  }

  function AfterAdvance(s: State, id: nat, fault: bool): State {
    if id !in s.runs then s
    else match s.runs[id].pc
      case Resolve => AfterResolve(s, id, fault)
      case Lookup => AfterLookup(s, id, fault)
      case Read => AfterRead(s, id, fault)
      case Send => AfterSend(s, id, fault)
      case Claim => if s.runs[id].mirror.Some? then AfterClaim(s, id, fault) else s
      case Withdraw => if s.runs[id].mirror.Some? then AfterWithdraw(s, id, fault) else s
      case Reread => AfterReread(s, id, fault)
      case Done(_) => s
      case Failed => s
  }

  /** Posts are tombstoned by their authors; mirrors only by the run that made them. */
  function Step(s: State, a: Action): State {
    match a
    case Link(channel, group) => AfterLink(s, channel, group)
    case Unlink(channel) => AfterUnlink(s, channel)
    case SetComments(channel, enabled) =>
      if channel in s.channels
      then s.(channels := s.channels[channel := s.channels[channel].(commentsEnabled := enabled)])
      else s
    case Post(chat) => s.(messages := s.messages[s.nextId := Message(chat, None, false)], nextId := s.nextId + 1)
    case Delete(m) =>
      if m in s.messages && s.messages[m].origin.None? then s.(messages := Tombstoned(s.messages, m)) else s
    case Start(run, post, channel, observer) =>
      if run in s.runs then s
      else Move(s, run, Run(post, channel, observer, 0, None, false, false, false, Resolve))
    case Advance(run, fault) => AfterAdvance(s, run, fault)
  }

  function RunAll(s: State, actions: seq<Action>): State {
    if actions == [] then s else Step(RunAll(s, actions[..|actions| - 1]), actions[|actions| - 1])
  }

  /** Channels and groups that exist, none linked, before any message. */
  predicate Initial(s: State) {
    && (forall c :: c in s.channels ==> s.channels[c].discussion.None?)
    && (forall g :: g in s.groups ==> s.groups[g].None?)
    && s.messages == map[] && s.threads == map[] && s.runs == map[]
  }

  // --------------------------------------------------------------- invariant

  /** A link is never half made: either side names the other. */
  ghost predicate LinksMatch(s: State) {
    && (forall c :: c in s.channels && s.channels[c].discussion.Some? ==>
          s.channels[c].discussion.value in s.groups && s.groups[s.channels[c].discussion.value] == Some(c))
    && (forall g :: g in s.groups && s.groups[g].Some? ==>
          s.groups[g].value in s.channels && s.channels[s.groups[g].value].discussion == Some(g))
  }

  predicate Outcomes(r: Run) {
    && (r.mirror.None? ==> !r.won && !r.withdrawn && !r.dropped)
    && !(r.won && r.withdrawn) && !(r.won && r.dropped) && !(r.withdrawn && r.dropped)
    && match r.pc
       case Resolve => r.mirror.None?
       case Lookup => r.mirror.None?
       case Read => r.mirror.None?
       case Send => r.mirror.None?
       case Claim => r.mirror.Some? && !r.won && !r.withdrawn && !r.dropped
       case Withdraw => r.mirror.Some? && !r.won && !r.withdrawn && !r.dropped
       case Reread => r.mirror.Some? && !r.won && (r.withdrawn || r.dropped)
       case Done(_) => r.mirror.Some? ==> r.won || r.withdrawn || r.dropped
       case Failed => !r.won && (r.mirror.Some? ==> r.withdrawn || r.dropped)
  }

  ghost predicate RunInv(s: State, id: nat, r: Run) {
    && Outcomes(r)
    && (r.mirror.Some? ==>
          && r.mirror.value in s.messages
          && s.messages[r.mirror.value] == Message(r.discussion, Some(Origin(r.post, id)), r.withdrawn))
    && (r.won ==> r.post in s.threads && s.threads[r.post] == Thread(r.channel, r.discussion, r.mirror.value))
    && (r.pc.Withdraw? || r.pc.Reread? ==> r.post in s.threads)
    && (r.pc.Done? ==> r.post in s.threads && s.threads[r.post] == r.pc.thread)
    && (r.pc.Send? || r.pc.Claim? ==> r.post in s.messages && s.messages[r.post].chat == r.channel)
  }

  ghost predicate MessageInv(s: State, m: nat, message: Message) {
    && m < s.nextId
    && (message.origin.Some? ==>
          var o := message.origin.value;
          o.run in s.runs && s.runs[o.run].mirror == Some(m) && s.runs[o.run].post == o.post)
  }

  ghost predicate ThreadInv(s: State, post: nat, thread: Thread) {
    && thread.root in s.messages && s.messages[thread.root].origin.Some?
    && (var o := s.messages[thread.root].origin.value; o.post == post && o.run in s.runs && s.runs[o.run].won)
    && post in s.messages && s.messages[post].chat == thread.channel
  }

  ghost predicate Inv(s: State) {
    && LinksMatch(s)
    && (forall id :: id in s.runs ==> RunInv(s, id, s.runs[id]))
    && (forall m :: m in s.messages ==> MessageInv(s, m, s.messages[m]))
    && (forall p :: p in s.threads ==> ThreadInv(s, p, s.threads[p]))
  }

  lemma OnlyLinksChange(s: State, t: State)
    requires Inv(s) && LinksMatch(t)
    requires t.messages == s.messages && t.nextId == s.nextId && t.threads == s.threads && t.runs == s.runs
    ensures Inv(t)
  {
    assert forall id :: id in s.runs ==> RunInv(s, id, s.runs[id]);
    assert forall m :: m in s.messages ==> MessageInv(s, m, s.messages[m]);
    assert forall p :: p in s.threads ==> ThreadInv(s, p, s.threads[p]);
  }

  /** Moves that only change where one run is, or how it ended. */
  lemma MoveKeepsInv(s: State, id: nat, r: Run)
    requires Inv(s) && RunInv(s, id, r)
    requires id in s.runs ==> r.mirror == s.runs[id].mirror && r.post == s.runs[id].post && r.won == s.runs[id].won
    ensures Inv(Move(s, id, r))
  {
    var t := Move(s, id, r);
    assert forall i :: i in t.runs ==> RunInv(t, i, t.runs[i]);
    assert forall m :: m in s.messages ==> MessageInv(t, m, s.messages[m]);
    assert forall p :: p in s.threads ==> ThreadInv(t, p, s.threads[p]);
  }

  lemma PostKeepsInv(s: State, chat: nat)
    requires Inv(s)
    ensures Inv(Step(s, Post(chat)))
  {
    var t := Step(s, Post(chat));
    assert forall i :: i in t.runs ==> RunInv(t, i, t.runs[i]);
    assert forall m :: m in t.messages ==> MessageInv(t, m, t.messages[m]);
    assert forall p :: p in t.threads ==> ThreadInv(t, p, t.threads[p]);
  }

  lemma DeleteKeepsInv(s: State, m: nat)
    requires Inv(s) && m in s.messages && s.messages[m].origin.None?
    ensures Inv(s.(messages := Tombstoned(s.messages, m)))
  {
    var t := s.(messages := Tombstoned(s.messages, m));
    forall i | i in t.runs ensures RunInv(t, i, t.runs[i]) {
      assert RunInv(s, i, s.runs[i]);
    }
    forall n | n in t.messages ensures MessageInv(t, n, t.messages[n]) {
      assert MessageInv(s, n, s.messages[n]);
    }
    forall p | p in t.threads ensures ThreadInv(t, p, t.threads[p]) {
      assert ThreadInv(s, p, s.threads[p]);
    }
  }

  lemma SendKeepsInv(s: State, id: nat)
    requires Inv(s) && id in s.runs && s.runs[id].pc.Send?
    ensures Inv(AfterSend(s, id, false))
  {
    var t := AfterSend(s, id, false);
    forall i | i in t.runs ensures RunInv(t, i, t.runs[i]) {
      SendKeepsRun(s, id, i);
    }
    forall m | m in t.messages ensures MessageInv(t, m, t.messages[m]) {
      assert m != s.nextId ==> MessageInv(s, m, s.messages[m]);
      assert s.runs[id].mirror.None?;
    }
    forall p | p in t.threads ensures ThreadInv(t, p, t.threads[p]) {
      SendKeepsThread(s, id, p);
    }
  }

  lemma SendKeepsRun(s: State, id: nat, i: nat)
    requires Inv(s) && id in s.runs && s.runs[id].pc.Send? && i in s.runs
    ensures var t := AfterSend(s, id, false); RunInv(t, i, t.runs[i])
  {
    assert RunInv(s, i, s.runs[i]);
    assert s.nextId in s.messages ==> MessageInv(s, s.nextId, s.messages[s.nextId]);
  }

  lemma SendKeepsThread(s: State, id: nat, p: nat)
    requires Inv(s) && id in s.runs && s.runs[id].pc.Send? && p in s.threads
    ensures var t := AfterSend(s, id, false); ThreadInv(t, p, t.threads[p])
  {
    assert ThreadInv(s, p, s.threads[p]);
    assert s.nextId in s.messages ==> MessageInv(s, s.nextId, s.messages[s.nextId]);
  }

  lemma ClaimKeepsInv(s: State, id: nat)
    requires Inv(s) && id in s.runs && s.runs[id].pc.Claim? && s.runs[id].post !in s.threads
    ensures Inv(AfterClaim(s, id, false))
  {
    var t := AfterClaim(s, id, false);
    assert forall i :: i in t.runs ==> RunInv(t, i, t.runs[i]);
    assert forall m :: m in t.messages ==> MessageInv(t, m, t.messages[m]);
    assert forall p :: p in t.threads ==> ThreadInv(t, p, t.threads[p]);
  }

  lemma WithdrawKeepsInv(s: State, id: nat)
    requires Inv(s) && id in s.runs && s.runs[id].pc.Withdraw?
    ensures Inv(AfterWithdraw(s, id, false))
  {
    var t := AfterWithdraw(s, id, false);
    assert RunInv(s, id, s.runs[id]);
    forall i | i in t.runs ensures RunInv(t, i, t.runs[i]) {
      assert RunInv(s, i, s.runs[i]);
    }
    forall n | n in t.messages ensures MessageInv(t, n, t.messages[n]) {
      assert MessageInv(s, n, s.messages[n]);
    }
    forall p | p in t.threads ensures ThreadInv(t, p, t.threads[p]) {
      assert ThreadInv(s, p, s.threads[p]);
    }
  }

  predicate Quiet(s: State, id: nat, fault: bool) {
    && id in s.runs
    && (fault || !(s.runs[id].pc.Send? || s.runs[id].pc.Withdraw?))
    && (fault || !s.runs[id].pc.Claim? || s.runs[id].post in s.threads)
  }

  /** A statement that fails, or only reads, moves one run. */
  lemma QuietMoves(s: State, id: nat, fault: bool)
    requires Quiet(s, id, fault) && RunInv(s, id, s.runs[id])
    ensures var r, r' := s.runs[id], AfterAdvance(s, id, fault).runs[id];
            && AfterAdvance(s, id, fault) == Move(s, id, r')
            && r'.mirror == r.mirror && r'.post == r.post && r'.won == r.won && RunInv(s, id, r')
  {
    assert s.runs[id := s.runs[id]] == s.runs;
  }

  lemma QuietKeepsInv(s: State, id: nat, fault: bool)
    requires Inv(s) && Quiet(s, id, fault)
    ensures Inv(AfterAdvance(s, id, fault))
  {
    QuietMoves(s, id, fault);
    MoveKeepsInv(s, id, AfterAdvance(s, id, fault).runs[id]);
  }

  lemma AdvanceKeepsInv(s: State, id: nat, fault: bool)
    requires Inv(s)
    ensures Inv(AfterAdvance(s, id, fault))
  {
    if id in s.runs {
      var r := s.runs[id];
      assert RunInv(s, id, r);
      if r.pc.Send? && !fault {
        SendKeepsInv(s, id);
      } else if r.pc.Claim? && !fault && r.post !in s.threads {
        ClaimKeepsInv(s, id);
      } else if r.pc.Withdraw? && !fault {
        WithdrawKeepsInv(s, id);
      } else {
        QuietKeepsInv(s, id, fault);
      }
    }
  }

  lemma LinksKeepInv(s: State, a: Action)
    requires Inv(s) && (a.Link? || a.Unlink? || a.SetComments?)
    ensures Inv(Step(s, a))
  {
    OnlyLinksChange(s, Step(s, a));
  }

  lemma StartKeepsInv(s: State, run: nat, post: nat, channel: nat, observer: bool)
    requires Inv(s)
    ensures Inv(Step(s, Start(run, post, channel, observer)))
  {
    if run !in s.runs {
      MoveKeepsInv(s, run, Run(post, channel, observer, 0, None, false, false, false, Resolve));
    }
  }

  lemma StepKeepsInv(s: State, a: Action)
    requires Inv(s)
    ensures Inv(Step(s, a))
  {
    match a
    case Link(_, _) => LinksKeepInv(s, a);
    case Unlink(_) => LinksKeepInv(s, a);
    case SetComments(_, _) => LinksKeepInv(s, a);
    case Post(chat) => PostKeepsInv(s, chat);
    case Delete(m) =>
      if m in s.messages && s.messages[m].origin.None? {
        DeleteKeepsInv(s, m);
      }
    case Start(run, post, channel, observer) => StartKeepsInv(s, run, post, channel, observer);
    case Advance(run, fault) => AdvanceKeepsInv(s, run, fault);
  }

  lemma {:induction false} RunKeepsInv(s: State, actions: seq<Action>)
    requires Inv(s)
    ensures Inv(RunAll(s, actions))
  {
    if actions != [] {
      RunKeepsInv(s, actions[..|actions| - 1]);
      StepKeepsInv(RunAll(s, actions[..|actions| - 1]), actions[|actions| - 1]);
    }
  }

  // ---------------------------------------------------------------- theorems

  lemma StepKeepsThread(s: State, a: Action, post: nat)
    requires post in s.threads
    ensures var t := Step(s, a); post in t.threads && t.threads[post] == s.threads[post]
  {
  }

  /** A claimed row is never rewritten or removed, whatever happens afterwards. */
  lemma {:induction false} ThreadsAreWrittenOnce(s: State, actions: seq<Action>, post: nat)
    requires post in s.threads
    ensures var t := RunAll(s, actions); post in t.threads && t.threads[post] == s.threads[post]
  {
    if actions != [] {
      ThreadsAreWrittenOnce(s, actions[..|actions| - 1], post);
      StepKeepsThread(RunAll(s, actions[..|actions| - 1]), actions[|actions| - 1], post);
    }
  }

  function LiveMirrors(s: State, post: nat): set<nat> {
    set m | m in s.messages && !s.messages[m].deleted
            && s.messages[m].origin.Some? && s.messages[m].origin.value.post == post
  }

  /**
   * Safety of the race, in every interleaving of any number of runs with links, unlinks and
   * deletions: a run that succeeds returns the claimed row; that row names the post's own
   * channel and a live copy of the post in the discussion group; at most one run won it; and
   * any other live copy belongs to a run that is still between its send and its withdrawal,
   * or whose claim or withdrawal returned an error.
   */
  lemma MirrorSafety(s0: State, actions: seq<Action>, post: nat)
    requires Initial(s0)
    ensures var s := RunAll(s0, actions);
            && (forall id :: id in s.runs && s.runs[id].post == post && s.runs[id].pc.Done? ==>
                  post in s.threads && s.runs[id].pc.thread == s.threads[post])
            && (post in s.threads ==>
                  && s.threads[post].root in LiveMirrors(s, post)
                  && s.messages[s.threads[post].root].chat == s.threads[post].discussion
                  && post in s.messages && s.messages[post].chat == s.threads[post].channel)
            && (forall i, j :: i in s.runs && j in s.runs && s.runs[i].won && s.runs[j].won ==>
                  s.runs[i].post == s.runs[j].post ==> i == j)
            && (forall m :: m in LiveMirrors(s, post) ==>
                  var o := s.messages[m].origin.value;
                  && o.run in s.runs
                  && ((post in s.threads && s.threads[post].root == m)
                      || s.runs[o.run].pc.Claim? || s.runs[o.run].pc.Withdraw? || s.runs[o.run].dropped))
  {
    var s := RunAll(s0, actions);
    RunKeepsInv(s0, actions);
    forall m | m in LiveMirrors(s, post)
      ensures var o := s.messages[m].origin.value;
              && o.run in s.runs
              && ((post in s.threads && s.threads[post].root == m)
                  || s.runs[o.run].pc.Claim? || s.runs[o.run].pc.Withdraw? || s.runs[o.run].dropped)
    {
      assert MessageInv(s, m, s.messages[m]);
      assert RunInv(s, s.messages[m].origin.value.run, s.runs[s.messages[m].origin.value.run]);
    }
    if post in s.threads {
      RootIsLive(s, post);
    }
  }

  lemma RootIsLive(s: State, post: nat)
    requires Inv(s) && post in s.threads
    ensures var root := s.threads[post].root;
            && root in LiveMirrors(s, post) && s.messages[root].chat == s.threads[post].discussion
            && s.runs[s.messages[root].origin.value.run].won
  {
    var root := s.threads[post].root;
    assert ThreadInv(s, post, s.threads[post]);
    assert MessageInv(s, root, s.messages[root]);
    var w := s.messages[root].origin.value.run;
    assert RunInv(s, w, s.runs[w]);
  }

  predicate Won(s: State, post: nat, run: nat) {
    run in s.runs && s.runs[run].won && s.runs[run].post == post
  }

  lemma ThreadHasWinner(s: State, post: nat)
    requires Inv(s)
    ensures post in s.threads <==> exists run :: Won(s, post, run)
    ensures post in s.threads ==>
              && s.threads[post].root in LiveMirrors(s, post)
              && s.messages[s.threads[post].root].chat == s.threads[post].discussion
              && post in s.messages && s.messages[post].chat == s.threads[post].channel
  {
    if post in s.threads {
      assert ThreadInv(s, post, s.threads[post]);
      RootIsLive(s, post);
      var run := s.messages[s.threads[post].root].origin.value.run;
      assert MessageInv(s, s.threads[post].root, s.messages[s.threads[post].root]);
      assert Won(s, post, run);
    } else {
      forall run ensures !Won(s, post, run) {
        assert run in s.runs ==> RunInv(s, run, s.runs[run]);
      }
    }
  }

  predicate Finished(r: Run) {
    r.pc.Done? || r.pc.Failed?
  }

  /**
   * Once every run on a post has ended and one succeeded, the root is its only live copy
   * exactly when no run's claim or withdrawal returned an error: a failed withdrawal is
   * logged and forgotten, so the copy it should have removed stays.
   */
  lemma OneMirrorRemains(s0: State, actions: seq<Action>, post: nat, winner: nat)
    requires Initial(s0)
    requires var s := RunAll(s0, actions);
             && (forall id :: id in s.runs && s.runs[id].post == post ==> Finished(s.runs[id]))
             && winner in s.runs && s.runs[winner].post == post && s.runs[winner].pc.Done?
    ensures var s := RunAll(s0, actions);
            && post in s.threads
            && (LiveMirrors(s, post) == {s.threads[post].root} <==>
                forall id :: id in s.runs && s.runs[id].post == post ==> !s.runs[id].dropped)
  {
    var s := RunAll(s0, actions);
    RunKeepsInv(s0, actions);
    MirrorSafety(s0, actions, post);
    assert RunInv(s, winner, s.runs[winner]);
    var root := s.threads[post].root;
    RootIsLive(s, post);
    forall id | id in s.runs && s.runs[id].post == post && s.runs[id].dropped
      ensures LiveMirrors(s, post) != {root}
    {
      assert RunInv(s, id, s.runs[id]);
      var m := s.runs[id].mirror.value;
      assert m in LiveMirrors(s, post) && s.messages[m].origin.value.run == id;
      assert s.runs[s.messages[root].origin.value.run].won;
    }
    if forall id :: id in s.runs && s.runs[id].post == post ==> !s.runs[id].dropped {
      forall m | m in LiveMirrors(s, post) ensures m == root {
        assert MessageInv(s, m, s.messages[m]);
        assert Finished(s.runs[s.messages[m].origin.value.run]);
      }
    }
  }

  ghost predicate Reaches(s: State, t: State) {
    exists actions :: RunAll(s, actions) == t
  }

  lemma ReachesNext(s: State, t: State, a: Action)
    requires Reaches(s, t)
    ensures Reaches(s, Step(t, a))
  {
    var actions :| RunAll(s, actions) == t;
    assert (actions + [a])[..|actions|] == actions;
    assert RunAll(s, actions + [a]) == Step(t, a);
  }

  /** An observer's run of post 3 from its start to just after its send. */
  lemma ReachesSent(s: State, t: State, run: nat)
    requires Reaches(s, t) && run !in t.runs && 3 in t.messages && t.messages[3] == Message(1, None, false)
    requires 1 in t.channels && t.channels[1] == Channel(Some(2), true)
    ensures Reaches(s, t.(messages := t.messages[t.nextId := Message(2, Some(Origin(3, run)), false)],
                          nextId := t.nextId + 1,
                          runs := t.runs[run := Run(3, 1, true, 2, Some(t.nextId), false, false, false, Claim)]))
  {
    var t1 := Step(t, Start(run, 3, 1, true));
    var t2 := Step(t1, Advance(run, false));
    var t3 := Step(t2, Advance(run, false));
    var t4 := Step(t3, Advance(run, false));
    ReachesNext(s, t, Start(run, 3, 1, true));
    ReachesNext(s, t1, Advance(run, false));
    ReachesNext(s, t2, Advance(run, false));
    ReachesNext(s, t3, Advance(run, false));
    assert t1.runs[run].pc == Resolve && t2.runs[run].pc == Read && t3.runs[run].pc == Send;
    assert t4.runs == t.runs[run := t4.runs[run]];
  }

  /** Both runs of a race report success, and both copies stay for good. */
  lemma DuplicateCanRemain(s0: State)
    requires s0 == State(map[1 := Channel(None, true)], map[2 := None], map[], 3, map[], map[])
    ensures Initial(s0)
    ensures exists s ::
              && Reaches(s0, s) && s.runs.Keys == {0, 1}
              && s.runs[0].pc.Done? && s.runs[1].pc.Done? && s.runs[0].post == s.runs[1].post == 3
              && LiveMirrors(s, 3) == {4, 5}
  {
    assert RunAll(s0, []) == s0;
    ReachesNext(s0, s0, Link(1, 2));
    var s1 := Step(s0, Link(1, 2));
    ReachesNext(s0, s1, Post(1));
    var s2 := Step(s1, Post(1));
    RaceBegins(s0, s2);
  }

  lemma RaceBegins(s0: State, s2: State)
    requires Reaches(s0, s2)
    requires s2 == State(map[1 := Channel(Some(2), true)], map[2 := Some(1)], map[3 := Message(1, None, false)],
                         4, map[], map[])
    ensures exists s ::
              && Reaches(s0, s) && s.runs.Keys == {0, 1}
              && s.runs[0].pc.Done? && s.runs[1].pc.Done? && s.runs[0].post == s.runs[1].post == 3
              && LiveMirrors(s, 3) == {4, 5}
  {
    ReachesSent(s0, s2, 0);
    var r0 := Run(3, 1, true, 2, Some(4), false, false, false, Claim);
    var s3 := s2.(messages := s2.messages[4 := Message(2, Some(Origin(3, 0)), false)],
                  nextId := 5, runs := map[0 := r0]);
    assert s3.runs == s2.runs[0 := r0];
    ReachesSent(s0, s3, 1);
    var r1 := Run(3, 1, true, 2, Some(5), false, false, false, Claim);
    var s4 := s3.(messages := s3.messages[5 := Message(2, Some(Origin(3, 1)), false)],
                  nextId := 6, runs := map[0 := r0, 1 := r1]);
    assert s4.runs == s3.runs[1 := r1];
    RaceEnds(s0, s4, r0, r1);
  }

  lemma RaceEnds(s0: State, s4: State, r0: Run, r1: Run)
    requires Reaches(s0, s4)
    requires r0 == Run(3, 1, true, 2, Some(4), false, false, false, Claim)
    requires r1 == Run(3, 1, true, 2, Some(5), false, false, false, Claim)
    requires s4 == State(map[1 := Channel(Some(2), true)], map[2 := Some(1)],
                         map[3 := Message(1, None, false),
                             4 := Message(2, Some(Origin(3, 0)), false),
                             5 := Message(2, Some(Origin(3, 1)), false)],
                         6, map[], map[0 := r0, 1 := r1])
    ensures exists s ::
              && Reaches(s0, s) && s.runs.Keys == {0, 1}
              && s.runs[0].pc.Done? && s.runs[1].pc.Done? && s.runs[0].post == s.runs[1].post == 3
              && LiveMirrors(s, 3) == {4, 5}
  {
    ReachesNext(s0, s4, Advance(0, false));
    var s5 := Step(s4, Advance(0, false));
    ReachesNext(s0, s5, Advance(1, false));
    var s6 := Step(s5, Advance(1, false));
    assert s5.runs[0].pc.Done? && s6.runs[1].pc.Withdraw? && s6.messages == s4.messages;
    assert LiveMirrors(s6, 3) == {4, 5};
    LoserStays(s0, s6);
  }

  /** The loser's withdrawal fails, and it reads the winner's row. */
  lemma LoserStays(s0: State, s: State)
    requires Reaches(s0, s) && s.runs.Keys == {0, 1} && s.runs[0].post == s.runs[1].post == 3
    requires s.runs[0].pc.Done? && s.runs[1].pc.Withdraw? && s.runs[1].mirror.Some?
    requires 3 in s.threads && LiveMirrors(s, 3) == {4, 5}
    ensures exists t ::
              && Reaches(s0, t) && t.runs.Keys == {0, 1}
              && t.runs[0].pc.Done? && t.runs[1].pc.Done? && t.runs[0].post == t.runs[1].post == 3
              && LiveMirrors(t, 3) == {4, 5}
  {
    ReachesNext(s0, s, Advance(1, true));
    var s1 := Step(s, Advance(1, true));
    ReachesNext(s0, s1, Advance(1, false));
    var s2 := Step(s1, Advance(1, false));
    assert s1.runs[1].pc.Reread? && s2.runs[1].pc.Done? && s2.messages == s.messages;
    assert s2.runs.Keys == {0, 1} && LiveMirrors(s2, 3) == LiveMirrors(s, 3);
  }

  // ------------------------------------------------------- what was allowed

  /** At action i of the trace, run `id` for the channel read its row: comments on, and this group linked. */
  predicate LinkRead(s0: State, actions: seq<Action>, i: nat, id: nat, channel: nat, group: nat)
    requires i < |actions|
  {
    var s := RunAll(s0, actions[..i]);
    && actions[i] == Advance(id, false)
    && id in s.runs && s.runs[id].pc == Resolve && s.runs[id].channel == channel
    && channel in s.channels && s.channels[channel] == Channel(Some(group), true)
  }

  /** At action i of the trace, run `id` read the post: in the channel, and not deleted. */
  predicate PostRead(s0: State, actions: seq<Action>, i: nat, id: nat, post: nat, channel: nat)
    requires i < |actions|
  {
    var s := RunAll(s0, actions[..i]);
    && actions[i] == Advance(id, false)
    && id in s.runs && s.runs[id].pc == Read && s.runs[id].post == post
    && post in s.messages && s.messages[post].chat == channel && !s.messages[post].deleted
  }

  ghost predicate HasReadLink(s0: State, actions: seq<Action>, id: nat, channel: nat, group: nat) {
    exists i :: 0 <= i < |actions| && LinkRead(s0, actions, i, id, channel, group)
  }

  ghost predicate HasReadPost(s0: State, actions: seq<Action>, id: nat, post: nat, channel: nat) {
    exists i :: 0 <= i < |actions| && PostRead(s0, actions, i, id, post, channel)
  }

  predicate PastLink(r: Run) {
    r.mirror.Some? || !(r.pc.Resolve? || r.pc.Failed?)
  }

  predicate PastPost(r: Run) {
    r.mirror.Some? || r.pc.Send?
  }

  /** A run gets past its reading of the link only there, and nothing later changes what it read. */
  ghost predicate LinkKept(s: State, t: State, a: Action, id: nat)
    requires id in s.runs && id in t.runs
  {
    var r, r' := s.runs[id], t.runs[id];
    && r'.channel == r.channel && r'.post == r.post
    && (PastLink(r') && PastLink(r) ==> r'.discussion == r.discussion)
    && (PastLink(r') && !PastLink(r) ==>
          && a == Advance(id, false) && r.pc == Resolve
          && r.channel in s.channels && s.channels[r.channel] == Channel(Some(r'.discussion), true))
  }

  ghost predicate PostKept(s: State, t: State, a: Action, id: nat)
    requires id in s.runs && id in t.runs
  {
    var r, r' := s.runs[id], t.runs[id];
    && r'.channel == r.channel && r'.post == r.post
    && (PastPost(r') && !PastPost(r) ==>
          && a == Advance(id, false) && r.pc == Read
          && r.post in s.messages && s.messages[r.post].chat == r.channel && !s.messages[r.post].deleted)
  }

  lemma OwnTurnReads(s: State, id: nat, fault: bool)
    requires id in s.runs && Outcomes(s.runs[id])
    ensures var t := AfterAdvance(s, id, fault);
            && id in t.runs
            && LinkKept(s, t, Advance(id, fault), id) && PostKept(s, t, Advance(id, fault), id)
  {
    match s.runs[id].pc
    case Resolve =>
    case Lookup =>
    case Read =>
    case Send =>
    case Claim =>
    case Withdraw =>
    case Reread =>
    case Done(_) =>
    case Failed =>
  }

  lemma StepReads(s: State, a: Action, id: nat)
    requires id in s.runs && Outcomes(s.runs[id])
    ensures id in Step(s, a).runs && LinkKept(s, Step(s, a), a, id) && PostKept(s, Step(s, a), a, id)
  {
    if a.Advance? && a.run == id {
      OwnTurnReads(s, id, a.fault);
    } else {
      ForeignStep(s, a, id);
    }
  }

  /** A run that is past either reading was there a step before. */
  lemma NewRunsReadNothing(s: State, a: Action, id: nat)
    requires id !in s.runs && id in Step(s, a).runs
    ensures !PastLink(Step(s, a).runs[id]) && !PastPost(Step(s, a).runs[id])
  {
    if a.Advance? {
      OnlyOwnRun(s, a.run, a.fault, id);
    }
  }

  lemma OnlyOwnRun(s: State, run: nat, fault: bool, id: nat)
    requires id !in s.runs
    ensures id !in AfterAdvance(s, run, fault).runs
  {
    if run in s.runs {
      match s.runs[run].pc
      case Resolve =>
      case Lookup =>
      case Read =>
      case Send =>
      case Claim =>
      case Withdraw =>
      case Reread =>
      case Done(_) =>
      case Failed =>
    }
  }

  /** The last step of a trace, seen by a run that is past a reading after it. */
  lemma LastStepReads(s0: State, actions: seq<Action>, id: nat)
    requires Initial(s0)
    requires id in RunAll(s0, actions).runs
    requires PastLink(RunAll(s0, actions).runs[id]) || PastPost(RunAll(s0, actions).runs[id])
    ensures actions != []
    ensures var a, s := actions[|actions| - 1], RunAll(s0, actions[..|actions| - 1]);
            && id in s.runs
            && LinkKept(s, RunAll(s0, actions), a, id) && PostKept(s, RunAll(s0, actions), a, id)
  {
    assert actions != [];
    var before := RunAll(s0, actions[..|actions| - 1]);
    if id in before.runs {
      RunKeepsInv(s0, actions[..|actions| - 1]);
      assert RunInv(before, id, before.runs[id]);
      StepReads(before, actions[|actions| - 1], id);
    } else {
      NewRunsReadNothing(before, actions[|actions| - 1], id);
    }
  }

  lemma {:induction false} LinkWasRead(s0: State, actions: seq<Action>, id: nat)
    requires Initial(s0)
    ensures var s := RunAll(s0, actions);
            id in s.runs && PastLink(s.runs[id]) ==>
              HasReadLink(s0, actions, id, s.runs[id].channel, s.runs[id].discussion)
  {
    var s := RunAll(s0, actions);
    if id in s.runs && PastLink(s.runs[id]) {
      var n := |actions| - 1;
      var before := RunAll(s0, actions[..n]);
      LastStepReads(s0, actions, id);
      if PastLink(before.runs[id]) {
        LinkWasRead(s0, actions[..n], id);
        var i :| 0 <= i < n && LinkRead(s0, actions[..n], i, id, s.runs[id].channel, s.runs[id].discussion);
        assert actions[..n][..i] == actions[..i];
        assert LinkRead(s0, actions, i, id, s.runs[id].channel, s.runs[id].discussion);
      } else {
        assert LinkRead(s0, actions, n, id, s.runs[id].channel, s.runs[id].discussion);
      }
    }
  }

  lemma {:induction false} PostWasRead(s0: State, actions: seq<Action>, id: nat)
    requires Initial(s0)
    ensures var s := RunAll(s0, actions);
            id in s.runs && PastPost(s.runs[id]) ==>
              HasReadPost(s0, actions, id, s.runs[id].post, s.runs[id].channel)
  {
    var s := RunAll(s0, actions);
    if id in s.runs && PastPost(s.runs[id]) {
      var n := |actions| - 1;
      var before := RunAll(s0, actions[..n]);
      LastStepReads(s0, actions, id);
      if PastPost(before.runs[id]) {
        PostWasRead(s0, actions[..n], id);
        var i :| 0 <= i < n && PostRead(s0, actions[..n], i, id, s.runs[id].post, s.runs[id].channel);
        assert actions[..n][..i] == actions[..i];
        assert PostRead(s0, actions, i, id, s.runs[id].post, s.runs[id].channel);
      } else {
        assert PostRead(s0, actions, n, id, s.runs[id].post, s.runs[id].channel);
      }
    }
  }

  /**
   * Nothing is mirrored, and no thread handed out, behind a channel's back. Over every run, a
   * mirror was sent by a run that had read the post's channel with comments on and linked to the
   * very group the mirror is in, and had read the post there undeleted; and a run that answered
   * with a thread had read its channel with comments on and a group linked.
   */
  lemma MirrorsWereAllowed(s0: State, actions: seq<Action>, m: nat, id: nat)
    requires Initial(s0)
    ensures var s := RunAll(s0, actions);
            && (m in s.messages && s.messages[m].origin.Some? ==>
                  var o := s.messages[m].origin.value;
                  && o.run in s.runs && o.post in s.messages
                  && HasReadLink(s0, actions, o.run, s.messages[o.post].chat, s.messages[m].chat)
                  && HasReadPost(s0, actions, o.run, o.post, s.messages[o.post].chat))
            && (id in s.runs && s.runs[id].pc.Done? ==>
                  exists group :: HasReadLink(s0, actions, id, s.runs[id].channel, group))
  {
    var s := RunAll(s0, actions);
    RunKeepsInv(s0, actions);
    LinkWasRead(s0, actions, id);
    if m in s.messages && s.messages[m].origin.Some? {
      var o := s.messages[m].origin.value;
      assert MessageInv(s, m, s.messages[m]);
      assert RunInv(s, o.run, s.runs[o.run]);
      LinkWasRead(s0, actions, o.run);
      PostWasRead(s0, actions, o.run);
      PostStaysPut(s0, actions, o.run);
    }
  }

  /** A post that a run has read stays in its channel. */
  lemma {:induction false} PostStaysPut(s0: State, actions: seq<Action>, id: nat)
    requires Initial(s0)
    ensures var s := RunAll(s0, actions);
            id in s.runs && PastPost(s.runs[id]) ==>
              s.runs[id].post in s.messages && s.messages[s.runs[id].post].chat == s.runs[id].channel
  {
    var s := RunAll(s0, actions);
    if id in s.runs && PastPost(s.runs[id]) {
      var n := |actions| - 1;
      var before := RunAll(s0, actions[..n]);
      RunKeepsInv(s0, actions[..n]);
      LastStepReads(s0, actions, id);
      PostStaysPut(s0, actions[..n], id);
      ChatsStay(before, actions[n], before.runs[id].post);
    }
  }

  lemma ChatsStay(s: State, a: Action, m: nat)
    requires Inv(s) && m in s.messages
    ensures m in Step(s, a).messages && Step(s, a).messages[m].chat == s.messages[m].chat
  {
    assert MessageInv(s, m, s.messages[m]);
  }

  /** Linking the same two again changes nothing and succeeds again. */
  lemma LinkingTwice(s: State, channel: nat, group: nat)
    requires LinkOutcome(s, channel, group) == Linked
    ensures var t := AfterLink(s, channel, group);
            && t.channels[channel].discussion == Some(group) && t.groups[group] == Some(channel)
            && t.channels[channel].commentsEnabled == s.channels[channel].commentsEnabled
            && LinkOutcome(t, channel, group) == Linked && AfterLink(t, channel, group) == t
  {
  }

  /** Either side of every link names the other, in every reachable state. */
  lemma LinksAreMutual(s0: State, actions: seq<Action>, channel: nat, group: nat)
    requires Initial(s0)
    ensures var s := RunAll(s0, actions);
            (channel in s.channels && s.channels[channel].discussion == Some(group))
              <==> (group in s.groups && s.groups[group] == Some(channel))
  {
    RunKeepsInv(s0, actions);
  }

  // ------------------------------------------------------------ interference

  /** Actions of everybody else, as seen by one run. */
  predicate Foreign(me: nat, actions: seq<Action>) {
    forall a :: a in actions ==> !(a.Advance? && a.run == me)
  }

  lemma OthersMove(s: State, id: nat, fault: bool, me: nat)
    requires me in s.runs && id != me
    ensures me in AfterAdvance(s, id, fault).runs && AfterAdvance(s, id, fault).runs[me] == s.runs[me]
  {
    if id in s.runs {
      match s.runs[id].pc
      case Resolve =>
      case Lookup =>
      case Read =>
      case Send =>
      case Claim =>
      case Withdraw =>
      case Reread =>
      case Done(_) =>
      case Failed =>
    }
  }

  lemma ForeignStep(s: State, a: Action, me: nat)
    requires me in s.runs && !(a.Advance? && a.run == me)
    ensures me in Step(s, a).runs && Step(s, a).runs[me] == s.runs[me]
  {
    if a.Advance? {
      OthersMove(s, a.run, a.fault, me);
    }
  }

  lemma {:induction false} ForeignKeepsRun(s: State, actions: seq<Action>, me: nat)
    requires me in s.runs && Foreign(me, actions)
    ensures me in RunAll(s, actions).runs && RunAll(s, actions).runs[me] == s.runs[me]
  {
    if actions != [] {
      ForeignKeepsRun(s, actions[..|actions| - 1], me);
      ForeignStep(RunAll(s, actions[..|actions| - 1]), actions[|actions| - 1], me);
    }
  }

  lemma {:induction false} RunAllAppend(s: State, a: seq<Action>, b: seq<Action>)
    ensures RunAll(s, a + b) == RunAll(RunAll(s, a), b)
  {
    if b == [] {
      assert a + b == a;
    } else {
      assert (a + b)[..|a + b| - 1] == a + b[..|b| - 1];
      RunAllAppend(s, a, b[..|b| - 1]);
    }
  }

  lemma ReachesTogether(s: State, t: State, u: State)
    requires Reaches(s, t) && Reaches(t, u)
    ensures Reaches(s, u)
  {
    var a :| RunAll(s, a) == t;
    var b :| RunAll(t, b) == u;
    RunAllAppend(s, a, b);
  }

  ghost predicate Sound(s: State, t: State) {
    Reaches(s, t) && Inv(t)
  }

  lemma TurnIsSound(s: State, t: State, me: nat, fault: bool)
    requires Sound(s, t)
    ensures Sound(s, AfterAdvance(t, me, fault))
  {
    var u := Step(t, Advance(me, fault));
    TurnIsStep(s, t, me, fault, u);
    assert Sound(s, u);
  }

  lemma TurnIsStep(s: State, t: State, me: nat, fault: bool, u: State)
    requires Sound(s, t) && u == Step(t, Advance(me, fault))
    ensures Sound(s, u)
  {
    ReachesNext(s, t, Advance(me, fault));
    StepKeepsInv(t, Advance(me, fault));
  }

  lemma StartIsSound(s: State, run: Run, me: nat)
    requires Inv(s) && me !in s.runs
    requires run == Run(run.post, run.channel, run.observer, 0, None, false, false, false, Resolve)
    ensures Sound(s, Move(s, me, run))
  {
    assert RunAll(s, []) == s;
    ReachesNext(s, s, Start(me, run.post, run.channel, run.observer));
    StepKeepsInv(s, Start(me, run.post, run.channel, run.observer));
  }

  lemma OthersAreSound(s: State, t: State, actions: seq<Action>, me: nat)
    requires Sound(s, t) && me in t.runs && Foreign(me, actions)
    ensures Sound(s, RunAll(t, actions))
    ensures me in RunAll(t, actions).runs && RunAll(t, actions).runs[me] == t.runs[me]
  {
    var before :| RunAll(s, before) == t;
    RunAllAppend(s, before, actions);
    RunKeepsInv(t, actions);
    ForeignKeepsRun(t, actions, me);
  }

  /** A channel whose posts may be commented on. */
  predicate Open(channels: map<nat, Channel>, channel: nat) {
    channel in channels && channels[channel].discussion.Some? && channels[channel].commentsEnabled
  }

  predicate LivePost(messages: map<nat, Message>, post: nat, channel: nat) {
    post in messages && messages[post].chat == channel && !messages[post].deleted
  }

  /** The tables, as far as mirroring goes. */
  datatype Tables = Tables(messages: map<nat, Message>, nextId: nat, threads: map<nat, Thread>)

  /**
   * What mirroring a post comes to when undisturbed: the copy becomes the thread's root if there
   * was no thread, and otherwise is tombstoned.
   */
  predicate Mirrored(t: Tables, u: Tables, me: nat, post: nat, channel: nat, group: nat) {
    && u.messages == t.messages[t.nextId := Message(group, Some(Origin(post, me)), post in t.threads)]
    && u.threads == if post in t.threads then t.threads else t.threads[post := Thread(channel, group, t.nextId)]
  }

  lemma CopyTombstoned(messages: map<nat, Message>, id: nat, chat: nat, origin: Option<Origin>)
    ensures Tombstoned(messages[id := Message(chat, origin, false)], id) == messages[id := Message(chat, origin, true)]
  {
  }

  /** Nobody comes between, and no statement fails. */
  ghost predicate Calm(env: nat -> seq<Action>, fault: nat -> bool) {
    forall k :: env(k) == [] && !fault(k)
  }

  // -------------------------------------------------------------- the tables

  class Discussions {
    var channels: map<nat, Channel>
    var groups: map<nat, Option<nat>>
    var messages: map<nat, Message>
    var nextId: nat
    var threads: map<nat, Thread>
    var runs: map<nat, Run>

    ghost function Model(): State
      reads this
    {
      State(channels, groups, messages, nextId, threads, runs)
    }

    ghost function Mirroring(): Tables
      reads this
    {
      Tables(messages, nextId, threads)
    }

    constructor (channels: set<nat>, groups: set<nat>)
      ensures Initial(Model()) && this.channels.Keys == channels && this.groups.Keys == groups
    {
      this.channels := map c | c in channels :: Channel(None, true);
      this.groups := map g | g in groups :: None;
      this.messages := map[];
      this.nextId := 0;
      this.threads := map[];
      this.runs := map[];
    }

    method LinkDiscussion(channel: nat, group: nat) returns (r: LinkResult)
      modifies this`channels, this`groups
      ensures r == LinkOutcome(old(Model()), channel, group)
      ensures r == NotAChannel <==> channel !in old(channels)
      ensures r == NotAGroup <==> channel in old(channels) && group !in old(groups)
      ensures r == AlreadyLinked <==>
                && channel in old(channels) && group in old(groups)
                && ((old(channels)[channel].discussion.Some? && old(channels)[channel].discussion.value != group)
                    || (old(groups)[group].Some? && old(groups)[group].value != channel))
      ensures r == Linked ==>
                && channels == old(channels)[channel := Channel(Some(group), old(channels)[channel].commentsEnabled)]
                && groups == old(groups)[group := Some(channel)]
      ensures r != Linked ==> channels == old(channels) && groups == old(groups)
      ensures Model() == Step(old(Model()), Link(channel, group))
    {
      if channel !in channels {
        return NotAChannel;
      }
      if group !in groups {
        return NotAGroup;
      }
      var existingDiscussion, existingChannel := channels[channel].discussion, groups[group];
      if existingDiscussion.Some? && existingDiscussion.value != group {
        return AlreadyLinked;
      }
      if existingChannel.Some? && existingChannel.value != channel {
        return AlreadyLinked;
      }
      channels := channels[channel := channels[channel].(discussion := Some(group))];
      groups := groups[group := Some(channel)];
      return Linked;
    }

    method UnlinkDiscussion(channel: nat) returns (r: LinkResult)
      modifies this`channels, this`groups
      ensures Model() == Step(old(Model()), Unlink(channel))
      ensures r == if channel !in old(channels) then NotAChannel
                   else if old(channels)[channel].discussion.None? then NoDiscussionGroup
                   else Linked
      ensures r == Linked ==>
                && channels == old(channels)[channel := Channel(None, old(channels)[channel].commentsEnabled)]
                && forall g :: g in old(groups) && g != old(channels)[channel].discussion.value ==>
                     g in groups && groups[g] == old(groups)[g]
      ensures r != Linked ==> channels == old(channels) && groups == old(groups)
    {
      if channel !in channels {
        return NotAChannel;
      }
      var group := channels[channel].discussion;
      if group.None? {
        return NoDiscussionGroup;
      }
      channels := channels[channel := channels[channel].(discussion := None)];
      if group.value in groups {
        groups := groups[group.value := None];
      }
      return Linked;
    }

    method RecordCommentThread(post: nat, channel: nat, discussion: nat, message: nat) returns (won: bool)
      modifies this`threads
      ensures won <==> post !in old(threads)
      ensures threads == if won then old(threads)[post := Thread(channel, discussion, message)] else old(threads)
    {
      won := post !in threads;
      if won {
        threads := threads[post := Thread(channel, discussion, message)];
      }
    }

    method WithdrawMirror(message: nat)
      modifies this`messages
      ensures messages == Tombstoned(old(messages), message)
      ensures messages.Keys == old(messages).Keys && (message in messages ==> messages[message].deleted)
      ensures forall m :: m in messages && m != message ==> messages[m] == old(messages)[m]
    {
      if message in messages && !messages[message].deleted {
        messages := messages[message := messages[message].(deleted := true)];
      } else {
        assert message in messages ==> messages[message := messages[message].(deleted := true)] == messages;
      }
    }

    /** A row is found exactly when some run has won the post, and names that run's live copy of it. */
    method CommentThread(post: nat) returns (thread: Option<Thread>)
      ensures if post in threads then thread == Some(threads[post]) else thread.None?
      ensures Inv(Model()) ==> (thread.Some? <==> exists run :: Won(Model(), post, run))
      ensures Inv(Model()) && thread.Some? ==>
                && thread.value.root in LiveMirrors(Model(), post)
                && messages[thread.value.root].chat == thread.value.discussion
                && post in messages && messages[post].chat == thread.value.channel
    {
      if Inv(Model()) {
        ThreadHasWinner(Model(), post);
      }
      thread := if post in threads then Some(threads[post]) else None;
    }

    /** What others do between two statements of a run. */
    method Others(actions: seq<Action>)
      modifies this
      ensures Model() == RunAll(old(Model()), actions)
    {
      for i := 0 to |actions|
        invariant Model() == RunAll(old(Model()), actions[..i])
      {
        var t := Step(State(channels, groups, messages, nextId, threads, runs), actions[i]);
        channels, groups, messages := t.channels, t.groups, t.messages;
        nextId, threads, runs := t.nextId, t.threads, t.runs;
        assert actions[..i + 1][..i] == actions[..i];
      }
      assert actions[..|actions|] == actions;
    }

    method ReadLink(me: nat, fault: bool) returns (ok: bool)
      requires me in runs && runs[me].pc.Resolve?
      modifies this`runs
      ensures Model() == AfterAdvance(old(Model()), me, fault)
      ensures ok <==> !runs[me].pc.Failed?
    {
      var r := runs[me];
      if fault || r.channel !in channels
         || channels[r.channel].discussion.None? || !channels[r.channel].commentsEnabled {
        runs := runs[me := r.(pc := Failed)];
        return false;
      }
      var next := if r.observer then Read else Lookup;
      runs := runs[me := r.(discussion := channels[r.channel].discussion.value, pc := next)];
      return true;
    }

    method LookUpThread(me: nat, fault: bool) returns (thread: Option<Thread>)
      requires me in runs && (runs[me].pc.Lookup? || runs[me].pc.Reread?)
      modifies this`runs
      ensures Model() == AfterAdvance(old(Model()), me, fault)
      ensures thread == if fault || runs[me].post !in threads then None else Some(threads[runs[me].post])
    {
      var r := runs[me];
      thread := None;
      if !fault {
        thread := CommentThread(r.post);
      }
      var next := if thread.Some? then Done(thread.value) else if fault || r.pc.Reread? then Failed else Read;
      runs := runs[me := r.(pc := next)];
    }

    method ReadPost(me: nat, fault: bool) returns (ok: bool)
      requires me in runs && runs[me].pc.Read?
      modifies this`runs
      ensures Model() == AfterAdvance(old(Model()), me, fault)
      ensures ok <==> !runs[me].pc.Failed?
    {
      var r := runs[me];
      ok := !fault && r.post in messages && messages[r.post].chat == r.channel && !messages[r.post].deleted;
      var next := if ok then Send else Failed;
      runs := runs[me := r.(pc := next)];
    }

    method SendMirror(me: nat, fault: bool) returns (mirror: Option<nat>)
      requires me in runs && runs[me].pc.Send?
      modifies this`runs, this`messages, this`nextId
      ensures Model() == AfterAdvance(old(Model()), me, fault)
      ensures mirror == if fault then None else Some(old(nextId))
    {
      var r := runs[me];
      if fault {
        runs := runs[me := r.(pc := Failed)];
        return None;
      }
      mirror := Some(nextId);
      messages := messages[nextId := Message(r.discussion, Some(Origin(r.post, me)), false)];
      nextId := nextId + 1;
      runs := runs[me := r.(mirror := mirror, pc := Claim)];
    }

    method ClaimThread(me: nat, mirror: nat, fault: bool) returns (won: Option<bool>)
      requires me in runs && runs[me].pc.Claim? && runs[me].mirror == Some(mirror)
      modifies this`runs, this`threads
      ensures Model() == AfterAdvance(old(Model()), me, fault)
      ensures won == if fault then None else Some(old(runs[me].post !in threads))
    {
      var r := runs[me];
      if fault {
        runs := runs[me := r.(dropped := true, pc := Failed)];
        return None;
      }
      var claimed := RecordCommentThread(r.post, r.channel, r.discussion, mirror);
      var next := if claimed then Done(Thread(r.channel, r.discussion, mirror)) else Withdraw;
      runs := runs[me := r.(won := r.won || claimed, pc := next)];
      return Some(claimed);
    }

    method WithdrawOwn(me: nat, mirror: nat, fault: bool)
      requires me in runs && runs[me].pc.Withdraw? && runs[me].mirror == Some(mirror)
      modifies this`runs, this`messages
      ensures Model() == AfterAdvance(old(Model()), me, fault)
    {
      var r := runs[me];
      if fault {
        runs := runs[me := r.(dropped := true, pc := Reread)];
      } else {
        WithdrawMirror(mirror);
        runs := runs[me := r.(withdrawn := true, pc := Reread)];
      }
    }

    /** The read of the post, the send, and the race for the row, with everybody else's statements between. */
    method MirrorPost(me: nat, env: nat -> seq<Action>, fault: nat -> bool) returns (thread: Option<Thread>)
      requires Inv(Model()) && me in runs && runs[me].pc.Read?
      requires forall k :: Foreign(me, env(k))
      modifies this
      ensures Sound(old(Model()), Model())
      ensures Ended(me, thread) && runs[me].post == old(runs[me].post)
      ensures !LivePost(old(messages), old(runs[me]).post, old(runs[me]).channel) ==>
                thread.None? && messages == old(messages) && threads == old(threads)
      ensures Calm(env, fault) && LivePost(old(messages), old(runs[me]).post, old(runs[me]).channel) ==>
                var r := old(runs[me]);
                && Mirrored(old(Mirroring()), Mirroring(), me, r.post, r.channel, r.discussion)
                && r.post in threads && thread == Some(threads[r.post])
    {
      ghost var s0 := Model();
      assert RunAll(s0, []) == s0;
      var mirror := ReadAndSend(me, s0, env(1), fault(0), fault(1));
      if mirror.None? {
        return None;
      }
      thread := ClaimOrWithdraw(me, mirror.value, s0, env, fault);
      CopyTombstoned(old(messages), mirror.value, old(runs[me]).discussion, Some(Origin(old(runs[me]).post, me)));
    }

    /** The first two statements of mirroring: a post that is not live in its channel is not sent. */
    method ReadAndSend(me: nat, ghost s0: State, env: seq<Action>, first: bool, second: bool)
      returns (mirror: Option<nat>)
      requires Sound(s0, Model()) && me in runs && runs[me].pc.Read? && Foreign(me, env)
      modifies this
      ensures Sound(s0, Model()) && me in runs && runs[me].post == old(runs[me]).post
      ensures mirror.None? ==> Ended(me, None)
      ensures mirror.Some? ==> runs[me].pc.Claim? && runs[me].mirror == mirror
      ensures !LivePost(old(messages), old(runs[me]).post, old(runs[me]).channel) ==>
                mirror.None? && messages == old(messages) && threads == old(threads)
      ensures env == [] && !first && !second && LivePost(old(messages), old(runs[me]).post, old(runs[me]).channel) ==>
                var r := old(runs[me]);
                && mirror == Some(old(nextId)) && runs[me] == r.(mirror := mirror, pc := Claim)
                && messages == old(messages)[old(nextId) := Message(r.discussion, Some(Origin(r.post, me)), false)]
                && threads == old(threads)
    {
      assert RunInv(Model(), me, runs[me]);
      TurnIsSound(s0, Model(), me, first);
      var ok := ReadPost(me, first);
      if !ok {
        return None;
      }
      OthersAreSound(s0, Model(), env, me);
      Others(env);
      TurnIsSound(s0, Model(), me, second);
      mirror := SendMirror(me, second);
    }

    method ClaimOrWithdraw(me: nat, mirror: nat, ghost s0: State, env: nat -> seq<Action>, fault: nat -> bool)
      returns (thread: Option<Thread>)
      requires Sound(s0, Model()) && me in runs && runs[me].pc.Claim? && runs[me].mirror == Some(mirror)
      requires forall k :: Foreign(me, env(k))
      modifies this
      ensures Sound(s0, Model())
      ensures Ended(me, thread) && runs[me].post == old(runs[me].post)
      ensures Calm(env, fault) ==>
                var r := old(runs[me]);
                if r.post in old(threads)
                then
                  && thread == Some(old(threads)[r.post]) && threads == old(threads)
                  && messages == Tombstoned(old(messages), mirror)
                else
                  && thread == Some(Thread(r.channel, r.discussion, mirror))
                  && threads == old(threads)[r.post := thread.value] && messages == old(messages)
    {
      OthersAreSound(s0, Model(), env(2), me);
      Others(env(2));
      TurnIsSound(s0, Model(), me, fault(2));
      var won := ClaimThread(me, mirror, fault(2));
      if won.None? {
        return None;
      }
      if won.value {
        return Some(Thread(runs[me].channel, runs[me].discussion, mirror));
      }

      thread := WithdrawAndReread(me, mirror, s0, env, fault);
    }

    /** What the loser of the race does. */
    method WithdrawAndReread(me: nat, mirror: nat, ghost s0: State, env: nat -> seq<Action>, fault: nat -> bool)
      returns (thread: Option<Thread>)
      requires Sound(s0, Model()) && me in runs && runs[me].pc.Withdraw? && runs[me].mirror == Some(mirror)
      requires forall k :: Foreign(me, env(k))
      modifies this
      ensures Sound(s0, Model())
      ensures Ended(me, thread) && runs[me].post == old(runs[me].post)
      ensures Calm(env, fault) && old(runs[me]).post in old(threads) ==>
                && thread == Some(old(threads)[old(runs[me]).post]) && threads == old(threads)
                && messages == Tombstoned(old(messages), mirror)
    {
      OthersAreSound(s0, Model(), env(3), me);
      Others(env(3));
      TurnIsSound(s0, Model(), me, fault(3));
      WithdrawOwn(me, mirror, fault(3));

      OthersAreSound(s0, Model(), env(4), me);
      Others(env(4));
      TurnIsSound(s0, Model(), me, fault(4));
      thread := LookUpThread(me, fault(4));
    }

    /**
     * What a run leaves behind, whatever interleaved with it: a success returns the claimed
     * row; a copy that is not its root is tombstoned unless the claim or withdrawal failed.
     */
    ghost predicate Ended(me: nat, thread: Option<Thread>)
      reads this
    {
      && me in runs
      && (thread.None? ==> runs[me].pc.Failed?)
      && (thread.Some? ==>
            && runs[me].pc == Done(thread.value)
            && runs[me].post in threads && threads[runs[me].post] == thread.value)
      && (runs[me].mirror.Some? && !runs[me].dropped
          && !(thread.Some? && thread.value.root == runs[me].mirror.value) ==>
            runs[me].mirror.value in messages && messages[runs[me].mirror.value].deleted)
    }

    /** The first statement of either request, and what others do after it. */
    method OpenLink(me: nat, ghost s0: State, env: seq<Action>, fault: bool) returns (ok: bool)
      requires Sound(s0, Model()) && me in runs && runs[me].pc.Resolve? && runs[me].mirror.None? && Foreign(me, env)
      modifies this
      ensures Sound(s0, Model()) && me in runs
      ensures var r := old(runs[me]);
              && ok == (Open(old(channels), r.channel) && !fault)
              && runs[me] ==
                 if ok
                 then r.(discussion := old(channels)[r.channel].discussion.value,
                         pc := if r.observer then Read else Lookup)
                 else r.(pc := Failed)
      ensures !ok || env == [] ==> Model() == old(Model()).(runs := runs)
    {
      TurnIsSound(s0, Model(), me, fault);
      ok := ReadLink(me, fault);
      if ok {
        OthersAreSound(s0, Model(), env, me);
        Others(env);
      }
    }

    /** The first two statements of a reader's request, in the second of which a thread may be found. */
    method FindThread(me: nat, ghost s0: State, env: seq<Action>, first: bool, second: bool)
      returns (thread: Option<Thread>)
      requires Sound(s0, Model()) && me in runs && runs[me].pc.Resolve? && runs[me].mirror.None?
      requires !runs[me].observer && Foreign(me, env)
      modifies this
      ensures Sound(s0, Model()) && me in runs && runs[me].post == old(runs[me].post)
      ensures !runs[me].pc.Read? ==> Ended(me, thread)
      ensures !Open(old(channels), old(runs[me]).channel) ==>
                thread.None? && !runs[me].pc.Read? && messages == old(messages) && threads == old(threads)
      ensures env == [] && !first && !second && Open(old(channels), old(runs[me]).channel) ==>
                var r := old(runs[me]);
                && Model() == old(Model()).(runs := runs)
                && if r.post in old(threads) then thread == Some(old(threads)[r.post]) && !runs[me].pc.Read?
                   else runs[me] == r.(discussion := old(channels)[r.channel].discussion.value, pc := Read)
    {
      var ok := OpenLink(me, s0, env, first);
      if !ok {
        return None;
      }
      TurnIsSound(s0, Model(), me, second);
      thread := LookUpThread(me, second);
    }

    /** A reader opening a post's comments: the existing thread, or a new mirror. */
    method CommentThreadFor(me: nat, channel: nat, post: nat, env: nat -> seq<Action>, fault: nat -> bool)
      returns (thread: Option<Thread>)
      requires Inv(Model()) && me !in runs
      requires forall k :: Foreign(me, env(k))
      modifies this
      ensures Sound(old(Model()), Model()) && Ended(me, thread) && runs[me].post == post
      ensures !Open(old(channels), channel) ==>
                thread.None? && messages == old(messages) && threads == old(threads)
      ensures Calm(env, fault) && Open(old(channels), channel) ==>
                if post in old(threads)
                then thread == Some(old(threads)[post]) && messages == old(messages) && threads == old(threads)
                else if LivePost(old(messages), post, channel)
                then
                  && Mirrored(old(Mirroring()), Mirroring(), me, post, channel, old(channels)[channel].discussion.value)
                  && post in threads && thread == Some(threads[post])
                else thread.None? && messages == old(messages) && threads == old(threads)
    {
      ghost var s0 := Model();
      var run := Run(post, channel, false, 0, None, false, false, false, Resolve);
      StartIsSound(s0, run, me);
      runs := runs[me := run];
      thread := FindThread(me, s0, env(6), fault(5), fault(6));
      if !runs[me].pc.Read? {
        return;
      }

      OthersAreSound(s0, Model(), env(0), me);
      Others(env(0));
      ghost var s1 := Model();
      thread := MirrorPost(me, env, fault);
      ReachesTogether(s0, s1, Model());
    }

    /** The observer of a post going out: it resolves the link and mirrors at once. */
    method ObserveMessage(me: nat, channel: nat, post: nat, env: nat -> seq<Action>, fault: nat -> bool)
      requires Inv(Model()) && me !in runs
      requires forall k :: Foreign(me, env(k))
      modifies this
      ensures Sound(old(Model()), Model()) && me in runs && Finished(runs[me])
      ensures !Open(old(channels), channel) ==> messages == old(messages) && threads == old(threads)
      ensures Calm(env, fault) && Open(old(channels), channel) ==>
                if LivePost(old(messages), post, channel)
                then Mirrored(old(Mirroring()), Mirroring(), me, post, channel, old(channels)[channel].discussion.value)
                else messages == old(messages) && threads == old(threads)
    {
      ghost var s0 := Model();
      var run := Run(post, channel, true, 0, None, false, false, false, Resolve);
      StartIsSound(s0, run, me);
      runs := runs[me := run];
      var ok := OpenLink(me, s0, env(0), fault(5));
      if !ok {
        return;
      }
      ghost var s1 := Model();
      var thread := MirrorPost(me, env, fault);
      ReachesTogether(s0, s1, Model());
    }
  }
}
