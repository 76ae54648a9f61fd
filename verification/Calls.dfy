/** The life of one call, statement by statement. Times are microseconds. */
module Calls {
  import opened Common

  const SECOND: nat := 1_000_000

  datatype Scope = Direct | Group

  datatype CallState = Ringing | Active | Ended | Rejected | Missed

  /** A participant's state: ringing, left, rejected and missed are Ring, Gone, Declined and NoAnswer here. */
  datatype Presence = Invited | Ring | Joined | Gone | Declined | NoAnswer

  /** A handler that has marked its participant and has yet to close the direct call. */
  datatype Closing = Closing(user: nat, state: CallState, reason: string)

  /** `lost` names the participants who have left or declined since, and whose close failed or never came. */
  datatype Call = Call(scope: Scope, state: CallState, reason: string, maxParticipants: int,
                       connectedAt: Option<nat>, endedAt: Option<nat>, duration: Option<nat>,
                       people: map<nat, Presence>, now: nat, closing: map<nat, Closing>, lost: set<nat>)

  datatype Action =
    | Tick(elapsed: nat)
    | Accept(user: nat)
    | RejectMark(handler: nat, user: nat)
    | EndLeave(handler: nat, user: nat, reason: string)
    | Close(handler: nat)
    | Lose(handler: nat)

  datatype JoinResult = Ok | NotFound | CallEnded | CallFull

  // ------------------------------------------------------------- statements

  predicate Terminal(state: CallState) {
    state == Ended || state == Rejected || state == Missed
  }

  function In(people: map<nat, Presence>, states: set<Presence>): set<nat> {
    set u | u in people && people[u] in states
  }

  /** Whom the call still has: joined, ringing or invited. */
  function Remaining(people: map<nat, Presence>): set<nat> {
    In(people, {Joined, Ring, Invited})
  }

  function Created(scope: Scope, initiator: nat, maxParticipants: int, invitees: set<nat>, now: nat): Call {
    Call(scope, Ringing, "", maxParticipants, None, None, None,
         (map u | u in invitees :: Ring)[initiator := Joined], now, map[], {})
  }

  function JoinOutcome(c: Call, user: nat): JoinResult {
    if user !in c.people then NotFound
    else if Terminal(c.state) then CallEnded
    else if |In(c.people, {Joined})| >= c.maxParticipants then CallFull
    else Ok
  }

  function AfterAccept(c: Call, user: nat): Call {
    if JoinOutcome(c, user) != Ok then c
    else c.(people := c.people[user := Joined], lost := c.lost - {user},
            state := Active,
            connectedAt := if c.state == Ringing && c.connectedAt.None? then Some(c.now) else c.connectedAt)
  }

  function Elapsed(c: Call): nat {
    if c.connectedAt.None? || c.connectedAt.value > c.now then 0
    else RoundedQuotient(c.now - c.connectedAt.value, SECOND)
  }

  /** The guarded update: only a call that is still going is closed. */
  function Closed(c: Call, state: CallState, reason: string): Call {
    if Terminal(c.state) then c
    else c.(state := state, reason := reason, endedAt := Some(c.now), duration := Some(Elapsed(c)))
  }

  function AfterRejectMark(c: Call, handler: nat, user: nat): Call {
    if user !in c.people || handler in c.closing then c
    else
      var marked := c.(people := c.people[user := Declined]);
      if c.scope == Direct
      then marked.(closing := c.closing[handler := Closing(user, Rejected, "declined")])
      else marked
  }

  function AfterLeave(c: Call, user: nat): Call {
    var marked := if user in c.people then c.(people := c.people[user := Gone]) else c;
    if Remaining(marked.people) != {} then marked else Closed(marked, Ended, "all_participants_left")
  }

  function AfterEndLeave(c: Call, handler: nat, user: nat, reason: string): Call {
    if user !in c.people || handler in c.closing then c
    else
      var left := AfterLeave(c, user);
      if c.scope == Direct && Remaining(left.people) != {}
      then left.(closing := left.closing[handler := Closing(user, Ended, reason)])
      else left
  }

  function AfterClose(c: Call, handler: nat): Call {
    if handler !in c.closing then c
    else Closed(c, c.closing[handler].state, c.closing[handler].reason).(closing := c.closing - {handler})
  }

  predicate Out(people: map<nat, Presence>, user: nat) {
    user in people && (people[user] == Gone || people[user] == Declined)
  }

  /** A close that fails, or whose handler dies. */
  function AfterLose(c: Call, handler: nat): Call {
    if handler !in c.closing then c
    else
      var user := c.closing[handler].user;
      c.(closing := c.closing - {handler}, lost := if Out(c.people, user) then c.lost + {user} else c.lost)
  }

  function Step(c: Call, a: Action): Call {
    match a
    case Tick(elapsed) => c.(now := c.now + elapsed)
    case Accept(user) => AfterAccept(c, user)
    case RejectMark(handler, user) => AfterRejectMark(c, handler, user)
    case EndLeave(handler, user, reason) => AfterEndLeave(c, handler, user, reason)
    case Close(handler) => AfterClose(c, handler)
    case Lose(handler) => AfterLose(c, handler)
  }

  function RunAll(c: Call, actions: seq<Action>): Call {
    if actions == [] then c else Step(RunAll(c, actions[..|actions| - 1]), actions[|actions| - 1])
  }

  // ---------------------------------------------------------------- lifecycle

  predicate Kept(c: Call, d: Call) {
    && d.state == c.state && d.reason == c.reason && d.endedAt == c.endedAt
    && d.duration == c.duration && d.connectedAt == c.connectedAt
  }

  lemma TerminalStep(c: Call, a: Action)
    requires Terminal(c.state)
    ensures Kept(c, Step(c, a))
  {
  }

  /** Once a call has ended, was rejected or was missed, how and when it did is settled for good. */
  lemma {:induction false} TerminalIsForever(c: Call, actions: seq<Action>)
    requires Terminal(c.state)
    ensures Kept(c, RunAll(c, actions))
  {
    if actions != [] {
      TerminalIsForever(c, actions[..|actions| - 1]);
      TerminalStep(RunAll(c, actions[..|actions| - 1]), actions[|actions| - 1]);
    }
  }

  predicate Timed(c: Call) {
    && (c.connectedAt.Some? ==> c.connectedAt.value <= c.now)
    && match c.state
       case Ringing => c.connectedAt.None? && c.endedAt.None? && c.duration.None? && c.reason == ""
       case Active => c.connectedAt.Some? && c.endedAt.None? && c.duration.None? && c.reason == ""
       case _ =>
         && c.endedAt.Some? && c.duration.Some?
         && (c.connectedAt.Some? ==> c.connectedAt.value <= c.endedAt.value)
         && c.duration.value ==
            if c.connectedAt.None? then 0 else RoundedQuotient(c.endedAt.value - c.connectedAt.value, SECOND)
  }

  predicate WithinCap(c: Call) {
    |In(c.people, {Joined})| <= if c.maxParticipants > 1 then c.maxParticipants else 1
  }

  predicate Closer(c: Call, user: nat, handler: nat) {
    handler in c.closing && c.closing[handler].user == user
  }

  /** Whoever left or declined a direct call in progress has a handler about to close it, or one that failed to. */
  ghost predicate Closes(c: Call) {
    && (forall h :: h in c.closing ==>
          c.scope == Direct && (c.closing[h].state == Ended || c.closing[h].state == Rejected))
    && (forall u :: u in c.lost ==> Out(c.people, u))
    && (c.scope == Direct && !Terminal(c.state) ==>
          forall u :: Out(c.people, u) ==> u in c.lost || exists h :: Closer(c, u, h))
  }

  ghost predicate Inv(c: Call) {
    Timed(c) && WithinCap(c) && Closes(c)
  }

  lemma JoinCount(people: map<nat, Presence>, user: nat, p: Presence)
    ensures var before, after := In(people, {Joined}), In(people[user := p], {Joined});
            after == if p == Joined then before + {user} else before - {user}
    ensures |In(people[user := p], {Joined})| <= |In(people, {Joined})| + if p == Joined then 1 else 0
  {
    var before := In(people, {Joined});
    assert In(people[user := p], {Joined}) == if p == Joined then before + {user} else before - {user};
    assert before - {user} <= before;
    assert user in before ==> |before - {user}| == |before| - 1;
    assert user !in before ==> before - {user} == before;
  }

  lemma ClosedTimed(c: Call, state: CallState, reason: string)
    requires Timed(c) && Terminal(state)
    ensures Timed(Closed(c, state, reason))
  {
  }

  lemma LeaveTimed(c: Call, user: nat)
    requires Timed(c)
    ensures Timed(AfterLeave(c, user))
  {
    ClosedTimed(if user in c.people then c.(people := c.people[user := Gone]) else c, Ended, "all_participants_left");
  }

  lemma StepKeepsTimed(c: Call, a: Action)
    requires Timed(c) && Closes(c)
    ensures Timed(Step(c, a))
  {
    match a
    case Tick(_) =>
    case Accept(_) =>
    case RejectMark(_, _) =>
    case EndLeave(_, user, _) => LeaveTimed(c, user);
    case Close(handler) =>
      if handler in c.closing {
        ClosedTimed(c, c.closing[handler].state, c.closing[handler].reason);
      }
    case Lose(_) =>
  }

  lemma LeaveKeepsCap(c: Call, user: nat)
    requires WithinCap(c)
    ensures WithinCap(AfterLeave(c, user))
  {
    JoinCount(c.people, user, Gone);
  }

  lemma AcceptKeepsCap(c: Call, user: nat)
    requires WithinCap(c)
    ensures WithinCap(AfterAccept(c, user))
  {
    JoinCount(c.people, user, Joined);
  }

  lemma StepKeepsCap(c: Call, a: Action)
    requires WithinCap(c)
    ensures WithinCap(Step(c, a))
  {
    match a
    case Tick(_) =>
    case Accept(user) => AcceptKeepsCap(c, user);
    case RejectMark(_, user) => JoinCount(c.people, user, Declined);
    case EndLeave(_, user, _) => LeaveKeepsCap(c, user);
    case Close(_) =>
    case Lose(_) =>
  }

  lemma AcceptKeepsCloses(c: Call, user: nat)
    requires Closes(c)
    ensures Closes(AfterAccept(c, user))
  {
    var d := AfterAccept(c, user);
    forall u | Out(d.people, u) && d.scope == Direct && !Terminal(d.state)
      ensures u in d.lost || exists h :: Closer(d, u, h)
    {
      assert Out(c.people, u);
      if u !in c.lost {
        var h :| Closer(c, u, h);
        assert Closer(d, u, h);
      }
    }
  }

  /** A mark that leaves a closing handler behind. */
  lemma MarkKeepsCloses(c: Call, user: nat, p: Presence, handler: nat, closing: Closing)
    requires Closes(c) && (p == Gone || p == Declined) && handler !in c.closing
    requires c.scope == Direct && closing.user == user && (closing.state == Ended || closing.state == Rejected)
    ensures Closes(c.(people := c.people[user := p], closing := c.closing[handler := closing]))
  {
    var d := c.(people := c.people[user := p], closing := c.closing[handler := closing]);
    forall u | Out(d.people, u) && !Terminal(d.state)
      ensures u in d.lost || exists h :: Closer(d, u, h)
    {
      if u == user {
        assert Closer(d, u, handler);
      } else {
        assert Out(c.people, u);
        if u !in c.lost {
          var h :| Closer(c, u, h);
          assert Closer(d, u, h);
        }
      }
    }
  }

  lemma EndLeaveKeepsCloses(c: Call, handler: nat, user: nat, reason: string)
    requires Closes(c)
    ensures Closes(AfterEndLeave(c, handler, user, reason))
  {
    if user in c.people && handler !in c.closing && c.scope == Direct {
      MarkKeepsCloses(c, user, Gone, handler, Closing(user, Ended, reason));
    }
  }

  lemma CloseKeepsCloses(c: Call, handler: nat)
    requires Closes(c)
    ensures Closes(AfterClose(c, handler))
  {
  }

  lemma LoseKeepsCloses(c: Call, handler: nat)
    requires Closes(c)
    ensures Closes(AfterLose(c, handler))
  {
    var d := AfterLose(c, handler);
    forall u | Out(d.people, u) && d.scope == Direct && !Terminal(d.state)
      ensures u in d.lost || exists h :: Closer(d, u, h)
    {
      assert Out(c.people, u);
      if u !in d.lost {
        var h :| Closer(c, u, h);
        assert Closer(d, u, h);
      }
    }
  }

  lemma StepKeepsCloses(c: Call, a: Action)
    requires Closes(c)
    ensures Closes(Step(c, a))
  {
    match a
    case Tick(_) => assert forall u, h :: Closer(c, u, h) ==> Closer(Step(c, a), u, h);
    case Accept(user) => AcceptKeepsCloses(c, user);
    case RejectMark(handler, user) =>
      if user in c.people && handler !in c.closing && c.scope == Direct {
        MarkKeepsCloses(c, user, Declined, handler, Closing(user, Rejected, "declined"));
      }
    case EndLeave(handler, user, reason) => EndLeaveKeepsCloses(c, handler, user, reason);
    case Close(handler) => CloseKeepsCloses(c, handler);
    case Lose(handler) => LoseKeepsCloses(c, handler);
  }

  lemma StepKeepsInv(c: Call, a: Action)
    requires Inv(c)
    ensures Inv(Step(c, a))
  {
    StepKeepsTimed(c, a);
    StepKeepsCap(c, a);
    StepKeepsCloses(c, a);
  }

  lemma {:induction false} RunKeepsInv(c: Call, actions: seq<Action>)
    requires Inv(c)
    ensures Inv(RunAll(c, actions))
  {
    if actions != [] {
      RunKeepsInv(c, actions[..|actions| - 1]);
      StepKeepsInv(RunAll(c, actions[..|actions| - 1]), actions[|actions| - 1]);
    }
  }

  /** Nobody is between the two statements of a hang-up or a decline. */
  predicate Quiet(c: Call) {
    c.scope == Direct && !Terminal(c.state) && c.closing == map[]
  }

  /**
   * Every reachable call: joined participants never exceed the cap; ringing means never
   * connected and active means connected; a finished call's duration is the time from
   * connecting to ending, rounded to seconds, or zero; and in a quiet direct call in progress
   * exactly those have left or declined whose close was lost, so nobody has if none was.
   */
  lemma CallsAreSound(scope: Scope, initiator: nat, maxParticipants: int, invitees: set<nat>, now: nat,
      actions: seq<Action>)
    ensures var c := RunAll(Created(scope, initiator, maxParticipants, invitees, now), actions);
            && Timed(c) && WithinCap(c)
            && (Quiet(c) ==> forall u :: Out(c.people, u) <==> u in c.lost)
  {
    var c0 := Created(scope, initiator, maxParticipants, invitees, now);
    CreatedIsSound(scope, initiator, maxParticipants, invitees, now);
    RunKeepsInv(c0, actions);
    var c := RunAll(c0, actions);
    assert Quiet(c) ==> forall u, h :: !Closer(c, u, h);
  }

  /** A hang-up whose second statement fails leaves a direct call going on with someone who has left. */
  lemma LostCloseLeavesCallOpen(c0: Call)
    requires c0 == Created(Direct, 1, 2, {1, 2}, 0)
    ensures exists actions ::
              var c := RunAll(c0, actions); Quiet(c) && Out(c.people, 1) && 1 in c.lost
  {
    var c1 := Step(c0, EndLeave(0, 1, "bye"));
    assert 2 in Remaining(c1.people) && c1.closing == map[0 := Closing(1, Ended, "bye")];
    var c2 := Step(c1, Lose(0));
    assert c2.closing == map[];
    var actions := [EndLeave(0, 1, "bye"), Lose(0)];
    OneStep(c0, EndLeave(0, 1, "bye"));
    assert actions[..1] == [EndLeave(0, 1, "bye")];
    assert RunAll(c0, actions) == c2;
  }

  lemma OneStep(c: Call, a: Action)
    ensures RunAll(c, [a]) == Step(c, a)
  {
    assert [a][..0] == [];
  }

  lemma CreatedIsSound(scope: Scope, initiator: nat, maxParticipants: int, invitees: set<nat>, now: nat)
    ensures Inv(Created(scope, initiator, maxParticipants, invitees, now))
  {
    var c := Created(scope, initiator, maxParticipants, invitees, now);
    assert In(c.people, {Joined}) == {initiator};
    assert forall u :: !Out(c.people, u);
  }

  /** Only those called or calling are ever in a call, and it connects once: neither changes after. */
  lemma {:induction false} InvitedOnly(c: Call, actions: seq<Action>)
    ensures var d := RunAll(c, actions);
            d.people.Keys == c.people.Keys && (c.connectedAt.Some? ==> d.connectedAt == c.connectedAt)
  {
    if actions != [] {
      InvitedOnly(c, actions[..|actions| - 1]);
      InvitedStep(RunAll(c, actions[..|actions| - 1]), actions[|actions| - 1]);
    }
  }

  lemma InvitedStep(c: Call, a: Action)
    ensures var d := Step(c, a);
            d.people.Keys == c.people.Keys && (c.connectedAt.Some? ==> d.connectedAt == c.connectedAt)
  {
  }

  // ------------------------------------------------------------ empty calls

  lemma RemainingAfter(people: map<nat, Presence>, user: nat, p: Presence)
    ensures Remaining(people[user := p]) ==
            if p == Joined || p == Ring || p == Invited then Remaining(people) + {user} else Remaining(people) - {user}
  {
  }

  /**
   * A call with nobody left is over, unless its last participant declines instead of leaving:
   * a decline does not count who remains, so a group call then goes on with nobody in it.
   */
  lemma EmptyOnlyByDecline(c: Call, a: Action)
    requires !Terminal(c.state) && Remaining(c.people) != {} && Closes(c)
    ensures var d := Step(c, a);
            !Terminal(d.state) && Remaining(d.people) == {} <==>
            a.RejectMark? && a.handler !in c.closing && Remaining(c.people) == {a.user}
  {
    match a
    case Accept(user) => RemainingAfter(c.people, user, Joined);
    case RejectMark(_, user) =>
      RemainingAfter(c.people, user, Declined);
      assert Remaining(c.people) - {user} == {} <==> Remaining(c.people) <= {user};
      assert Remaining(c.people) == {user} ==> user in Remaining(c.people);
    case EndLeave(_, user, _) => RemainingAfter(c.people, user, Gone);
    case _ =>
  }

  /** Of the two in a group call one leaves, the other declines, and it is still ringing with nobody in it. */
  lemma GroupCallLeftEmpty(c0: Call)
    requires c0 == Created(Group, 1, 8, {2}, 0)
    ensures var c := RunAll(c0, [EndLeave(0, 1, "bye"), RejectMark(1, 2)]);
            !Terminal(c.state) && Remaining(c.people) == {}
  {
    var actions := [EndLeave(0, 1, "bye"), RejectMark(1, 2)];
    assert 2 in Remaining(Step(c0, EndLeave(0, 1, "bye")).people);
    OneStep(c0, actions[0]);
    assert actions[..1] == [actions[0]];
    assert RunAll(c0, actions).people == map[1 := Gone, 2 := Declined];
  }

  // ---------------------------------------------------------------- the row

  predicate Foreign(handler: nat, actions: seq<Action>) {
    forall a :: a in actions ==> !((a.Close? || a.Lose?) && a.handler == handler)
  }

  lemma ForeignStep(c: Call, a: Action, handler: nat)
    requires handler in c.closing && !((a.Close? || a.Lose?) && a.handler == handler)
    ensures handler in Step(c, a).closing && Step(c, a).closing[handler] == c.closing[handler]
  {
  }

  lemma {:induction false} ForeignKeeps(c: Call, actions: seq<Action>, handler: nat)
    requires handler in c.closing && Foreign(handler, actions)
    ensures var d := RunAll(c, actions); handler in d.closing && d.closing[handler] == c.closing[handler]
  {
    if actions != [] {
      ForeignKeeps(c, actions[..|actions| - 1], handler);
      ForeignStep(RunAll(c, actions[..|actions| - 1]), actions[|actions| - 1], handler);
    }
  }

  /** What a handler leaves, having marked its participant: others' statements, then its close if it owes one. */
  function Finished(marked: Call, handler: nat, env: seq<Action>, fault: bool): Call {
    if handler !in marked.closing then marked
    else Step(RunAll(marked, env), if fault then Lose(handler) else Close(handler))
  }

  class CallRow {
    const scope: Scope
    const maxParticipants: int
    var state: CallState
    var reason: string
    var connectedAt: Option<nat>
    var endedAt: Option<nat>
    var duration: Option<nat>
    var people: map<nat, Presence>
    var now: nat
    var closing: map<nat, Closing>
    var lost: set<nat>

    ghost function Model(): Call
      reads this
    {
      Call(scope, state, reason, maxParticipants, connectedAt, endedAt, duration, people, now, closing, lost)
    }

    constructor (scope: Scope, initiator: nat, maxParticipants: int, invitees: set<nat>, now: nat)
      ensures Model() == Created(scope, initiator, maxParticipants, invitees, now)
      ensures state == Ringing && people.Keys == invitees + {initiator} && people[initiator] == Joined
      ensures forall u :: u in invitees && u != initiator ==> people[u] == Ring
    {
      this.scope, this.maxParticipants := scope, maxParticipants;
      state, reason, connectedAt, endedAt, duration := Ringing, "", None, None, None;
      people := (map u | u in invitees :: Ring)[initiator := Joined];
      this.now, closing, lost := now, map[], {};
    }

    method Join(user: nat) returns (r: JoinResult)
      modifies this`people, this`state, this`connectedAt, this`lost
      ensures r == JoinOutcome(old(Model()), user) && Model() == Step(old(Model()), Accept(user))
      ensures r == NotFound <==> user !in old(people)
      ensures r == CallEnded ==> old(state) == Ended || old(state) == Rejected || old(state) == Missed
      ensures r == CallFull ==> |set u | u in old(people) && old(people)[u] == Joined| >= maxParticipants
      ensures r == Ok ==> state == Active && people == old(people)[user := Joined] && connectedAt ==
                          if old(state) == Ringing && old(connectedAt).None? then Some(now) else old(connectedAt)
      ensures r != Ok ==> Model() == old(Model())
    {
      if user !in people {
        return NotFound;
      }
      if state == Ended || state == Rejected || state == Missed {
        return CallEnded;
      }
      var joined := set u | u in people && people[u] == Joined;
      assert joined == In(people, {Joined});
      if |joined| >= maxParticipants {
        return CallFull;
      }
      people, lost := people[user := Joined], lost - {user};
      if state == Ringing {
        state := Active;
        connectedAt := if connectedAt.None? then Some(now) else connectedAt;
      }
      return Ok;
    }

    method SetState(newState: CallState, why: string)
      modifies this`state, this`reason, this`endedAt, this`duration
      ensures Model() == Closed(old(Model()), newState, why)
      ensures old(state) == Ringing || old(state) == Active ==>
                state == newState && reason == why && endedAt == Some(now) && duration.Some?
    {
      if state != Ended && state != Rejected && state != Missed {
        var connected := connectedAt.Some? && connectedAt.value <= now;
        duration := Some(if connected then RoundedQuotient(now - connectedAt.value, SECOND) else 0);
        state, reason, endedAt := newState, why, Some(now);
      }
    }

    method Leave(user: nat) returns (ended: bool)
      modifies this`people, this`state, this`reason, this`endedAt, this`duration
      ensures Model() == AfterLeave(old(Model()), user) && (ended <==> Remaining(people) == {})
      ensures people == if user in old(people) then old(people)[user := Gone] else old(people)
      ensures ended && !Terminal(old(state)) ==> state == Ended && reason == "all_participants_left"
    {
      if user in people && people[user] != Gone {
        people := people[user := Gone];
      } else {
        assert user in people ==> people[user := Gone] == people;
      }
      var remaining := set u | u in people && people[u] in {Joined, Ring, Invited};
      assert remaining == Remaining(people);
      ended := remaining == {};
      if ended {
        SetState(Ended, "all_participants_left");
      }
    }

    method Others(actions: seq<Action>)
      modifies this
      ensures Model() == RunAll(old(Model()), actions)
    {
      for i := 0 to |actions|
        invariant Model() == RunAll(old(Model()), actions[..i])
      {
        SameTerms(RunAll(old(Model()), actions[..i]), actions[i]);
        var t := Step(
          Call(scope, state, reason, maxParticipants, connectedAt, endedAt, duration, people, now, closing, lost),
          actions[i]);
        state, reason, connectedAt, endedAt, duration := t.state, t.reason, t.connectedAt, t.endedAt, t.duration;
        people, now, closing, lost := t.people, t.now, t.closing, t.lost;
        assert actions[..i + 1][..i] == actions[..i];
      }
      assert actions[..|actions|] == actions;
    }

    /** Hanging up, with anything at all happening between its two statements. */
    method End(handler: nat, user: nat, why: string, env: seq<Action>, fault: bool) returns (ok: bool)
      requires Inv(Model()) && handler !in closing && Foreign(handler, env)
      modifies this
      ensures Inv(Model())
      ensures ok && scope == Direct ==> Terminal(state)
      ensures Model() == Finished(AfterEndLeave(old(Model()), handler, user, why), handler, env, fault)
      ensures user in old(people) && env == [] && !fault && scope == Direct && !Terminal(old(state)) ==>
                && ok && state == Ended && people == old(people)[user := Gone]
                && reason == if Remaining(people) == {} then "all_participants_left" else why
    {
      if user !in people {
        return false;
      }
      StepKeepsInv(Model(), EndLeave(handler, user, why));
      var ended := Leave(user);
      if scope != Direct || ended {
        return true;
      }
      closing := closing[handler := Closing(user, Ended, why)];
      ok := Finish(handler, Closing(user, Ended, why), env, fault);
    }

    /** Declining: a group call goes on without the participant. */
    method Reject(handler: nat, user: nat, env: seq<Action>, fault: bool) returns (ok: bool)
      requires Inv(Model()) && handler !in closing && Foreign(handler, env)
      modifies this
      ensures Inv(Model())
      ensures ok && scope == Direct ==> Terminal(state)
      ensures Model() == Finished(AfterRejectMark(old(Model()), handler, user), handler, env, fault)
      ensures user in old(people) && env == [] && !fault && scope == Direct && !Terminal(old(state)) ==>
                ok && state == Rejected && reason == "declined" && people == old(people)[user := Declined]
    {
      if user !in people {
        return false;
      }
      StepKeepsInv(Model(), RejectMark(handler, user));
      people := people[user := Declined];
      if scope != Direct {
        return true;
      }
      closing := closing[handler := Closing(user, Rejected, "declined")];
      ok := Finish(handler, Closing(user, Rejected, "declined"), env, fault);
    }

    /** The second statement of a handler that ends a direct call. */
    method Finish(handler: nat, owed: Closing, env: seq<Action>, fault: bool) returns (ok: bool)
      requires Inv(Model()) && handler in closing && closing[handler] == owed
      requires Terminal(owed.state) && Foreign(handler, env)
      modifies this
      ensures Inv(Model()) && ok == !fault && (ok ==> Terminal(state))
      ensures Model() == Finished(old(Model()), handler, env, fault)
    {
      ForeignKeeps(Model(), env, handler);
      RunKeepsInv(Model(), env);
      Others(env);
      StepKeepsInv(Model(), if fault then Lose(handler) else Close(handler));
      if fault {
        LoseOwn(handler, owed.user);
        return false;
      }
      SetState(owed.state, owed.reason);
      closing := closing - {handler};
      return true;
    }

    method LoseOwn(handler: nat, user: nat)
      requires handler in closing && closing[handler].user == user
      modifies this`closing, this`lost
      ensures Model() == AfterLose(old(Model()), handler)
    {
      var out := user in people && (people[user] == Gone || people[user] == Declined);
      closing := closing - {handler};
      if out {
        lost := lost + {user};
      }
    }
  }

  lemma SameTerms(c: Call, a: Action)
    ensures Step(c, a).scope == c.scope && Step(c, a).maxParticipants == c.maxParticipants
  {
  }
}
