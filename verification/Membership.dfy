/** The members of one group or channel: its counters, its limit and its owner. */
module Membership {
  import opened Common

  datatype Kind = Group | Channel

  datatype Role = Owner | Admin | Moderator | Member | Restricted

  /** A row of chat_members; a member who leaves keeps the row. */
  datatype Row = Row(role: Role, active: bool)

  datatype Status = Pending | Approved | Rejected

  /**
   * `doubled` counts the approvals of applicants who were members already; `leaving` holds the
   * requests whose departure was the last member's and who have yet to delete the chat.
   */
  datatype Chat = Chat(kind: Kind, memberCount: int, subscriberCount: int, maxMembers: int, deleted: bool,
                       members: map<nat, Row>, requests: map<nat, Status>, doubled: nat, leaving: set<nat>)

  datatype Outcome = Ok | NotFound | NotMember | AlreadyMember | ChatFull | Refused

  function Rank(role: Role): nat {
    match role
    case Owner => 0
    case Admin => 1
    case Moderator => 2
    case Member => 3
    case Restricted => 4
  }

  // ------------------------------------------------------------- repository

  function Created(kind: Kind, owner: nat, maxMembers: int): Chat {
    Chat(kind, 1, if kind == Channel then 1 else 0, maxMembers, false, map[owner := Row(Owner, true)], map[], 0, {})
  }

  predicate IsActive(c: Chat, user: nat) {
    user in c.members && c.members[user].active
  }

  function Clamped(n: int): int {
    if n < 0 then 0 else n
  }

  function Bumped(c: Chat, delta: int): Chat {
    c.(memberCount := Clamped(c.memberCount + delta),
       subscriberCount := if c.kind == Channel then Clamped(c.subscriberCount + delta) else c.subscriberCount)
  }

  function Added(c: Chat, user: nat, role: Role): (Chat, Outcome) {
    if c.deleted then (c, NotFound)
    else if c.memberCount >= c.maxMembers then (c, ChatFull)
    else if IsActive(c, user) then (c, AlreadyMember)
    else (Bumped(c.(members := c.members[user := Row(role, true)]), 1), Ok)
  }

  function Removed(c: Chat, user: nat): (Chat, Outcome) {
    if !IsActive(c, user) then (c, NotMember)
    else (Bumped(c.(members := c.members[user := c.members[user].(active := false)]), -1), Ok)
  }

  function RoleSet(c: Chat, user: nat, role: Role): (Chat, Outcome) {
    if !IsActive(c, user) then (c, NotMember)
    else (c.(members := c.members[user := Row(role, true)]), Ok)
  }

  /** One transaction: if the second update finds nobody, the first is rolled back. */
  function Transferred(c: Chat, from: nat, to: nat): (Chat, Outcome) {
    if !IsActive(c, from) || c.members[from].role != Owner then (c, NotFound)
    else
      var demoted := c.members[from := Row(Admin, true)];
      if to !in demoted || !demoted[to].active then (c, NotMember)
      else (c.(members := demoted[to := Row(Owner, true)]), Ok)
  }

  function Requested(c: Chat, user: nat): Chat {
    c.(requests := c.requests[user := Pending])
  }

  /** Approval reinstates a departed row as it was, and counts the applicant whether or not they were a member. */
  function Resolved(c: Chat, user: nat, approve: bool): (Chat, Outcome) {
    if user !in c.requests || c.requests[user] != Pending then (c, NotFound)
    else if !approve then (c.(requests := c.requests[user := Rejected]), Ok)
    else
      var row := if user in c.members then c.members[user].(active := true) else Row(Member, true);
      (Bumped(c.(requests := c.requests[user := Approved], members := c.members[user := row],
                 doubled := c.doubled + if IsActive(c, user) then 1 else 0), 1), Ok)
  }

  function Deleted(c: Chat): Chat {
    c.(deleted := true)
  }

  // ---------------------------------------------------------------- service

  /** What a request was told about itself and the chat when it began; by the time it acts this may be stale. */
  datatype Context = Context(isMember: bool, role: Role, memberCount: int)

  /** A deleted chat is not found, which refuses as a stranger is refused. */
  function ContextOf(c: Chat, user: nat): Context {
    var role := if IsActive(c, user) then c.members[user].role else Restricted;
    Context(!c.deleted && IsActive(c, user), role, c.memberCount)
  }

  datatype Action =
    | Join(user: nat)
    | Request(user: nat)
    | Resolve(user: nat, approve: bool)
    | Kick(actor: Context, target: nat, seen: Context)
    | Leave(request: nat, user: nat, seen: Context)
    | DeleteEmptied(request: nat, ok: bool)
    | SetRole(actor: Context, target: nat, role: Role)
    | Transfer(user: nat, seen: Context, target: nat)
    | Delete(actor: Context)

  /** A member may be removed only by someone of higher rank. */
  function Kicked(c: Chat, actor: Context, target: nat, seen: Context): (Chat, Outcome) {
    if !actor.isMember then (c, Refused)
    else if !seen.isMember then (c, NotFound)
    else if Rank(seen.role) <= Rank(actor.role) then (c, Refused)
    else Removed(c, target)
  }

  /** The last member to leave takes the chat along, in a statement of its own. */
  function Left(c: Chat, request: nat, user: nat, seen: Context): (Chat, Outcome) {
    if request in c.leaving || !seen.isMember || (seen.role == Owner && seen.memberCount > 1) then (c, Refused)
    else
      var (left, outcome) := Removed(c, user);
      (if outcome == Ok && seen.memberCount <= 1 then left.(leaving := left.leaving + {request}) else left, outcome)
  }

  /** A delete that fails is only logged. */
  function Emptied(c: Chat, request: nat, ok: bool): Chat {
    if request !in c.leaving then c
    else c.(leaving := c.leaving - {request}, deleted := c.deleted || ok)
  }

  /** The rank that is checked is the one granted; the target's own is not. */
  function RoleChanged(c: Chat, actor: Context, target: nat, role: Role): (Chat, Outcome) {
    if !actor.isMember || role == Owner || Rank(role) < Rank(actor.role) then (c, Refused)
    else RoleSet(c, target, role)
  }

  function HandedOver(c: Chat, user: nat, seen: Context, target: nat): (Chat, Outcome) {
    if !seen.isMember || seen.role != Owner then (c, Refused) else Transferred(c, user, target)
  }

  function Step(c: Chat, a: Action): Chat {
    match a
    case Join(user) => Added(c, user, Member).0
    case Request(user) => Requested(c, user)
    case Resolve(user, approve) => Resolved(c, user, approve).0
    case Kick(actor, target, seen) => Kicked(c, actor, target, seen).0
    case Leave(request, user, seen) => Left(c, request, user, seen).0
    case DeleteEmptied(request, ok) => Emptied(c, request, ok)
    case SetRole(actor, target, role) => RoleChanged(c, actor, target, role).0
    case Transfer(user, seen, target) => HandedOver(c, user, seen, target).0
    case Delete(actor) => if actor.isMember && actor.role == Owner then Deleted(c) else c
  }

  function RunAll(c: Chat, actions: seq<Action>): Chat {
    if actions == [] then c else Step(RunAll(c, actions[..|actions| - 1]), actions[|actions| - 1])
  }

  // ---------------------------------------------------------------- counters

  function Active(members: map<nat, Row>): set<nat> {
    set u | u in members && members[u].active
  }

  predicate Counted(c: Chat) {
    && c.memberCount == |Active(c.members)| + c.doubled
    && c.subscriberCount == if c.kind == Channel then c.memberCount else 0
  }

  lemma ActiveAfter(members: map<nat, Row>, user: nat, row: Row)
    ensures |Active(members[user := row])| ==
            |Active(members)| + (if row.active then 1 else 0) - if user in members && members[user].active then 1 else 0
  {
    var others := Active(members) - {user};
    assert Active(members[user := row]) == if row.active then others + {user} else others;
    assert Active(members) == if user in members && members[user].active then others + {user} else others;
  }

  lemma AddKeepsCount(c: Chat, user: nat, role: Role)
    requires Counted(c)
    ensures Counted(Added(c, user, role).0)
  {
    ActiveAfter(c.members, user, Row(role, true));
  }

  /** The clamp at zero never acts: whoever is removed was counted. */
  lemma RemoveKeepsCount(c: Chat, user: nat)
    requires Counted(c)
    ensures Counted(Removed(c, user).0)
    ensures IsActive(c, user) ==> c.memberCount >= 1 && Removed(c, user).0.memberCount == c.memberCount - 1
  {
    if IsActive(c, user) {
      ActiveAfter(c.members, user, c.members[user].(active := false));
    }
  }

  lemma ResolveKeepsCount(c: Chat, user: nat, approve: bool)
    requires Counted(c)
    ensures Counted(Resolved(c, user, approve).0)
  {
    ActiveAfter(c.members, user, if user in c.members then c.members[user].(active := true) else Row(Member, true));
  }

  lemma RolesKeepCount(c: Chat, from: nat, to: nat, role: Role)
    requires Counted(c)
    ensures Counted(RoleSet(c, to, role).0) && Counted(Transferred(c, from, to).0)
  {
    ActiveAfter(c.members, to, Row(role, true));
    ActiveAfter(c.members, from, Row(Admin, true));
    ActiveAfter(c.members[from := Row(Admin, true)], to, Row(Owner, true));
  }

  lemma StepKeepsCount(c: Chat, a: Action)
    requires Counted(c)
    ensures Counted(Step(c, a))
  {
    match a
    case Join(user) => AddKeepsCount(c, user, Member);
    case Request(_) =>
    case Resolve(user, approve) => ResolveKeepsCount(c, user, approve);
    case Kick(_, target, _) => RemoveKeepsCount(c, target);
    case Leave(_, user, _) => RemoveKeepsCount(c, user);
    case DeleteEmptied(_, _) =>
    case SetRole(_, target, role) => RolesKeepCount(c, 0, target, role);
    case Transfer(user, _, target) => RolesKeepCount(c, user, target, Admin);
    case Delete(_) =>
  }

  /**
   * Over every run of joins, approvals, removals, departures, role changes and transfers,
   * with contexts however stale: member_count exceeds the number of active members by exactly
   * the number of approvals whose applicant was already one, and a channel's subscriber_count
   * equals it. The counter never under-counts.
   */
  lemma {:induction false} CounterIsExact(kind: Kind, owner: nat, maxMembers: int, actions: seq<Action>)
    ensures Counted(RunAll(Created(kind, owner, maxMembers), actions))
  {
    if actions == [] {
      assert Active(map[owner := Row(Owner, true)]) == {owner};
    } else {
      CounterIsExact(kind, owner, maxMembers, actions[..|actions| - 1]);
      StepKeepsCount(RunAll(Created(kind, owner, maxMembers), actions[..|actions| - 1]), actions[|actions| - 1]);
    }
  }

  /** Whom an approval lets in, and as what: a newcomer as a member, whoever was here before as they were. */
  lemma ApprovalRole(c: Chat, user: nat)
    requires user in c.requests && c.requests[user] == Pending
    ensures var d := Step(c, Resolve(user, true));
            && IsActive(d, user) && d.requests[user] == Approved
            && d.members[user].role == (if user in c.members then c.members[user].role else Member)
            && forall u :: u in c.members && u != user ==> u in d.members && d.members[u] == c.members[u]
    ensures var d := Step(c, Resolve(user, false));
            d.members == c.members && d.requests[user] == Rejected && d.memberCount == c.memberCount
  {
  }

  // ------------------------------------------------------------------- limit

  /** The limit survives a step exactly when that step is not an approval into a full chat. */
  lemma LimitKept(c: Chat, a: Action)
    requires Counted(c) && 0 <= c.memberCount <= c.maxMembers
    ensures Step(c, a).maxMembers == c.maxMembers
    ensures Step(c, a).memberCount <= c.maxMembers <==>
            !(a.Resolve? && a.approve && a.user in c.requests && c.requests[a.user] == Pending
              && c.memberCount == c.maxMembers)
  {
  }

  // --------------------------------------------------------------- ownership

  /** One active owner, and no departed row that says owner. */
  predicate OwnedBy(c: Chat, owner: nat) {
    IsActive(c, owner) && forall u :: u in c.members ==> (c.members[u].role == Owner <==> u == owner)
  }

  /** Deleted, about to be deleted by whoever left last, or owned. */
  ghost predicate Owned(c: Chat) {
    c.deleted || c.leaving != {} || exists o :: OwnedBy(c, o)
  }

  /** The actions that leave a chat without an owner, seen from its current state. */
  predicate Orphans(c: Chat, owner: nat, a: Action) {
    c.leaving == {} &&
    match a
    case Kick(actor, target, seen) =>
      target == owner && actor.isMember && seen.isMember && Rank(actor.role) < Rank(seen.role)
    case Leave(_, user, seen) => user == owner && seen.isMember && seen.role != Owner && seen.memberCount > 1
    case SetRole(actor, target, role) =>
      target == owner && actor.isMember && role != Owner && Rank(actor.role) <= Rank(role)
    case _ => false
  }

  lemma NoOwnerLeft(c: Chat, owner: nat)
    requires !c.deleted && c.leaving == {}
    requires forall u :: u in c.members && c.members[u].role == Owner ==> u == owner
    requires owner in c.members && (c.members[owner].role != Owner || !c.members[owner].active)
    ensures !Owned(c)
  {
  }

  lemma RemoveKeepsOwner(c: Chat, owner: nat, user: nat)
    requires OwnedBy(c, owner)
    ensures var r := Removed(c, user);
            && r.0.deleted == c.deleted && r.0.leaving == c.leaving
            && (user != owner ==> OwnedBy(r.0, owner))
            && (user == owner ==> r.1 == Ok && (c.deleted || c.leaving != {} || !Owned(r.0)))
  {
    if user == owner && !c.deleted && c.leaving == {} {
      NoOwnerLeft(Removed(c, user).0, owner);
    }
  }

  lemma TransferKeepsOwner(c: Chat, owner: nat, from: nat, to: nat)
    requires OwnedBy(c, owner)
    ensures OwnedBy(Transferred(c, from, to).0, if Transferred(c, from, to).1 == Ok then to else owner)
  {
  }

  /** From an owned chat, a step leaves it owned exactly when it is not one of those. */
  lemma OwnedUnlessOrphaned(c: Chat, owner: nat, a: Action)
    requires !c.deleted && OwnedBy(c, owner)
    ensures Owned(Step(c, a)) <==> !Orphans(c, owner, a)
  {
    match a
    case Join(user) => assert OwnedBy(Step(c, a), owner);
    case Request(user) => assert OwnedBy(Step(c, a), owner);
    case Resolve(user, approve) => assert OwnedBy(Step(c, a), owner);
    case Kick(_, target, _) =>
      RemoveKeepsOwner(c, owner, target);
      assert target != owner || !Orphans(c, owner, a) ==> OwnedBy(Step(c, a), owner) || c.leaving != {};
    case Leave(_, _, _) => LeaveOwned(c, owner, a);
    case DeleteEmptied(_, _) => assert OwnedBy(Step(c, a), owner);
    case SetRole(_, target, role) => RoleOwned(c, owner, a);
    case Transfer(user, seen, target) =>
      TransferKeepsOwner(c, owner, user, target);
      assert OwnedBy(Step(c, a), owner) || OwnedBy(Step(c, a), target);
    case Delete(_) => assert OwnedBy(c, owner);
  }

  lemma LeaveOwned(c: Chat, owner: nat, a: Action)
    requires !c.deleted && OwnedBy(c, owner) && a.Leave?
    ensures Owned(Step(c, a)) <==> !Orphans(c, owner, a)
  {
    RemoveKeepsOwner(c, owner, a.user);
    if a.user != owner || Left(c, a.request, a.user, a.seen).1 == Refused {
      assert OwnedBy(Step(c, a), owner);
    }
  }

  lemma RoleOwned(c: Chat, owner: nat, a: Action)
    requires !c.deleted && OwnedBy(c, owner) && a.SetRole?
    ensures Owned(Step(c, a)) <==> !Orphans(c, owner, a)
  {
    if Orphans(c, owner, a) {
      NoOwnerLeft(Step(c, a), owner);
    } else if c.leaving == {} {
      assert OwnedBy(Step(c, a), owner);
    }
  }

  /** Once the last member has left, the chat is lost exactly when the one delete still due fails. */
  lemma EmptiedUnlessFailed(c: Chat, a: Action)
    requires !c.deleted && c.leaving != {} && forall o :: !OwnedBy(c, o)
    ensures Owned(Step(c, a)) <==> !(a.DeleteEmptied? && !a.ok && c.leaving == {a.request})
  {
    if a.DeleteEmptied? {
      assert c.leaving - {a.request} == {} <==> c.leaving <= {a.request};
      assert forall o :: OwnedBy(Step(c, a), o) ==> OwnedBy(c, o);
    }
  }

  /** Contexts read in the same step, deletes that succeed, and role changes of others than the owner. */
  predicate Careful(c: Chat, a: Action) {
    match a
    case Kick(_, target, seen) => seen == ContextOf(c, target)
    case Leave(_, user, seen) => seen == ContextOf(c, user)
    case DeleteEmptied(_, ok) => ok
    case SetRole(_, target, _) => !(IsActive(c, target) && c.members[target].role == Owner)
    case _ => true
  }

  predicate CarefulRun(c: Chat, actions: seq<Action>) {
    actions == [] ||
    (CarefulRun(c, actions[..|actions| - 1]) && Careful(RunAll(c, actions[..|actions| - 1]), actions[|actions| - 1]))
  }

  lemma CarefulNeverOrphans(c: Chat, owner: nat, a: Action)
    requires OwnedBy(c, owner) && Careful(c, a)
    ensures !Orphans(c, owner, a)
  {
  }

  lemma CarefulStep(c: Chat, a: Action)
    requires Owned(c) && Careful(c, a)
    ensures Owned(Step(c, a))
  {
    if c.deleted {
      DeletedStays(c, a);
    } else if o :| OwnedBy(c, o) {
      CarefulNeverOrphans(c, o, a);
      OwnedUnlessOrphaned(c, o, a);
    } else {
      EmptiedUnlessFailed(c, a);
    }
  }

  /**
   * After any careful run, a chat that is neither deleted nor about to be has exactly one
   * active owner, and no departed row is an owner's.
   */
  lemma {:induction false} OwnershipIsSafe(kind: Kind, owner: nat, maxMembers: int, actions: seq<Action>)
    requires CarefulRun(Created(kind, owner, maxMembers), actions)
    ensures Owned(RunAll(Created(kind, owner, maxMembers), actions))
  {
    var c0 := Created(kind, owner, maxMembers);
    if actions == [] {
      assert OwnedBy(c0, owner);
    } else {
      OwnershipIsSafe(kind, owner, maxMembers, actions[..|actions| - 1]);
      CarefulStep(RunAll(c0, actions[..|actions| - 1]), actions[|actions| - 1]);
    }
  }

  lemma DeletedStays(c: Chat, a: Action)
    requires c.deleted
    ensures Step(c, a).deleted
  {
  }

  /** An owner left alone can close the chat by leaving exactly when no approval was ever counted twice. */
  lemma LoneOwnerLeaves(c: Chat, owner: nat, request: nat)
    requires Counted(c) && !c.deleted && OwnedBy(c, owner) && Active(c.members) == {owner} && request !in c.leaving
    ensures var (left, outcome) := Left(c, request, owner, ContextOf(c, owner));
            (outcome == Ok <==> c.doubled == 0) && (outcome == Ok ==> Emptied(left, request, true).deleted)
  {
  }

  lemma SoleActive(members: map<nat, Row>, user: nat)
    requires user in members && members[user].active
    ensures |Active(members)| == 1 <==> Active(members) == {user}
  {
    assert |Active(members)| == |Active(members) - {user}| + 1;
  }

  /**
   * The delete that follows the last departure asks for no count. Over every run, it takes a
   * chat that still has members exactly when the counter, less the double counts, is not zero by
   * then: someone came between, or the departing member was not the last.
   */
  lemma DeleteTakesMembers(kind: Kind, owner: nat, maxMembers: int, actions: seq<Action>, request: nat)
    ensures var c := RunAll(Created(kind, owner, maxMembers), actions);
            request in c.leaving ==>
              var d := Step(c, DeleteEmptied(request, true));
              d.deleted && (Active(d.members) != {} <==> c.memberCount > c.doubled)
  {
    CounterIsExact(kind, owner, maxMembers, actions);
  }

  /** A departure taken for the last one is it exactly when the counter says so then, as when it was read then. */
  lemma TakenForLast(c: Chat, request: nat, user: nat, seen: Context)
    requires Counted(c) && IsActive(c, user) && request !in c.leaving && seen.isMember && seen.memberCount <= 1
    ensures var left := Left(c, request, user, seen).0;
            && request in left.leaving
            && (Active(left.members) == {} <==> c.memberCount - c.doubled == 1)
    ensures seen == ContextOf(c, user) ==> Active(Left(c, request, user, seen).0.members) == {}
  {
    SoleActive(c.members, user);
    assert Active(Left(c, request, user, seen).0.members) == Active(c.members) - {user};
  }

  /** A chat is deleted by its owner or after its last departure, and by nothing else. */
  lemma DeletedBy(c: Chat, a: Action)
    requires !c.deleted
    ensures Step(c, a).deleted <==>
            || (a.Delete? && a.actor.isMember && a.actor.role == Owner)
            || (a.DeleteEmptied? && a.ok && a.request in c.leaving)
  {
  }

  /** Whoever is refused or has left may apply again, and nothing but a decision settles an application. */
  lemma ApplicationsWait(c: Chat, a: Action, user: nat)
    ensures a == Request(user) ==> user in Step(c, a).requests && Step(c, a).requests[user] == Pending
    ensures user in c.requests && c.requests[user] == Pending && !(a.Resolve? && a.user == user) ==>
              user in Step(c, a).requests && Step(c, a).requests[user] == Pending
  {
  }

  // --------------------------------------------------------------- witnesses

  lemma OneMore(c: Chat, actions: seq<Action>, a: Action)
    ensures RunAll(c, actions + [a]) == Step(RunAll(c, actions), a)
  {
    assert (actions + [a])[..|actions|] == actions;
  }

  lemma One(c: Chat, a: Action)
    ensures RunAll(c, [a]) == Step(c, a)
  {
    assert [a][..0] == [];
  }

  lemma Two(c: Chat, a: Action, b: Action)
    ensures RunAll(c, [a, b]) == Step(Step(c, a), b)
  {
    One(c, a);
    OneMore(c, [a], b);
    assert [a] + [b] == [a, b];
  }

  lemma Three(c: Chat, a: Action, b: Action, d: Action)
    ensures RunAll(c, [a, b, d]) == Step(Step(Step(c, a), b), d)
  {
    Two(c, a, b);
    OneMore(c, [a, b], d);
    assert [a, b] + [d] == [a, b, d];
  }

  /** An owner makes himself an ordinary member, and nobody owns the chat. */
  lemma OwnerStepsDown(c0: Chat)
    requires c0 == Created(Group, 1, 10)
    ensures !Owned(RunAll(c0, [SetRole(ContextOf(c0, 1), 1, Member)]))
  {
    One(c0, SetRole(ContextOf(c0, 1), 1, Member));
    assert Step(c0, SetRole(ContextOf(c0, 1), 1, Member)) == RoleSet(c0, 1, Member).0;
    NoOwnerLeft(RoleSet(c0, 1, Member).0, 1);
  }

  /** An admin whom the owner has let manage admins does it to the owner. */
  lemma AdminDeposesOwner(c0: Chat)
    requires c0 == Created(Group, 1, 10)
    ensures exists actions :: !Owned(RunAll(c0, actions))
  {
    var a, b := Join(2), SetRole(Context(true, Owner, 2), 2, Admin);
    var d := SetRole(Context(true, Admin, 2), 1, Member);
    Three(c0, a, b, d);
    var c := Step(Step(Step(c0, a), b), d);
    assert c.members == map[1 := Row(Member, true), 2 := Row(Admin, true)];
    assert !Owned(RunAll(c0, [a, b, d]));
  }

  /** The new owner is removed, or leaves, on what was read of him before ownership was transferred to him. */
  lemma NewOwnerGone(c: Chat, kick: Action, leave: Action)
    requires c == RunAll(Created(Group, 1, 10), [Join(2)])
    requires kick == Kick(ContextOf(c, 1), 2, ContextOf(c, 2)) && leave == Leave(0, 2, ContextOf(c, 2))
    ensures var handOver := Transfer(1, ContextOf(c, 1), 2);
            !Owned(RunAll(c, [handOver, kick])) && !Owned(RunAll(c, [handOver, leave]))
  {
    One(Created(Group, 1, 10), Join(2));
    assert c.members == map[1 := Row(Owner, true), 2 := Row(Member, true)];
    var handOver := Transfer(1, ContextOf(c, 1), 2);
    Two(c, handOver, kick);
    Two(c, handOver, leave);
    var gone := map[1 := Row(Admin, true), 2 := Row(Owner, false)];
    assert RunAll(c, [handOver, kick]).members == gone && RunAll(c, [handOver, leave]).members == gone;
  }

  /** The last member leaves, the delete fails, and the chat is there with nobody in it. */
  lemma FailedDeleteLosesChat(c0: Chat)
    requires c0 == Created(Group, 1, 10)
    ensures !Owned(RunAll(c0, [Leave(0, 1, ContextOf(c0, 1)), DeleteEmptied(0, false)]))
  {
    Two(c0, Leave(0, 1, ContextOf(c0, 1)), DeleteEmptied(0, false));
    assert Step(c0, Leave(0, 1, ContextOf(c0, 1))).members == map[1 := Row(Owner, false)];
  }

  /** An owner who read that he was alone leaves after someone has joined, and the chat is deleted with them in it. */
  lemma ChatDeletedWithMember(c0: Chat)
    requires c0 == Created(Group, 1, 10)
    ensures var c := RunAll(c0, [Join(2), Leave(0, 1, ContextOf(c0, 1)), DeleteEmptied(0, true)]);
            c.deleted && IsActive(c, 2)
  {
    Three(c0, Join(2), Leave(0, 1, ContextOf(c0, 1)), DeleteEmptied(0, true));
  }

  /** Someone who applied and then joined directly is approved all the same, and counted twice. */
  lemma MemberCountedTwice(c0: Chat)
    requires c0 == Created(Group, 1, 10)
    ensures exists actions ::
              var c := RunAll(c0, actions); Active(c.members) == {1, 2} && c.memberCount == 3 && c.doubled == 1
  {
    var a, b, d := Request(2), Join(2), Resolve(2, true);
    Three(c0, a, b, d);
    var c := RunAll(c0, [a, b, d]);
    assert c.members == map[1 := Row(Owner, true), 2 := Row(Member, true)];
    assert Active(c.members) == {1, 2};
  }

  /** An approval takes a chat of one, limited to one, to two. */
  lemma ApprovedPastLimit(c0: Chat)
    requires c0 == Created(Group, 1, 1)
    ensures exists actions :: RunAll(c0, actions).memberCount > RunAll(c0, actions).maxMembers
  {
    assert [Request(2)][..0] == [];
    OneMore(c0, [Request(2)], Resolve(2, true));
    assert RunAll(c0, [Request(2)] + [Resolve(2, true)]).memberCount == 2;
  }

  // ---------------------------------------------------------------- the chat

  class Room {
    var kind: Kind
    var memberCount: int
    var subscriberCount: int
    var maxMembers: int
    var deleted: bool
    var members: map<nat, Row>
    var requests: map<nat, Status>
    var doubled: nat
    var leaving: set<nat>

    ghost function Model(): Chat
      reads this
    {
      Chat(kind, memberCount, subscriberCount, maxMembers, deleted, members, requests, doubled, leaving)
    }

    constructor (kind: Kind, owner: nat, maxMembers: int)
      ensures Model() == Created(kind, owner, maxMembers)
    {
      this.kind, this.maxMembers := kind, maxMembers;
      memberCount, subscriberCount := 1, if kind == Channel then 1 else 0;
      deleted, members, requests, doubled, leaving := false, map[owner := Row(Owner, true)], map[], 0, {};
    }

    method BumpMemberCount(delta: int)
      modifies this`memberCount, this`subscriberCount
      ensures Model() == Bumped(old(Model()), delta)
    {
      memberCount := if memberCount + delta < 0 then 0 else memberCount + delta;
      if kind == Channel {
        subscriberCount := if subscriberCount + delta < 0 then 0 else subscriberCount + delta;
      }
    }

    method AddMember(user: nat, role: Role) returns (outcome: Outcome)
      modifies this
      ensures (Model(), outcome) == Added(old(Model()), user, role)
      ensures outcome == NotFound <==> old(deleted)
      ensures outcome == ChatFull <==> !old(deleted) && old(memberCount) >= maxMembers
      ensures outcome == AlreadyMember <==>
                !old(deleted) && old(memberCount) < maxMembers && user in old(members) && old(members)[user].active
      ensures outcome == Ok ==> members == old(members)[user := Row(role, true)]
      ensures outcome != Ok ==> Model() == old(Model())
    {
      if deleted {
        return NotFound;
      }
      if memberCount >= maxMembers {
        return ChatFull;
      }
      if user in members && members[user].active {
        return AlreadyMember;
      }
      members := members[user := Row(role, true)];
      BumpMemberCount(1);
      return Ok;
    }

    method RemoveMember(user: nat) returns (outcome: Outcome)
      modifies this
      ensures (Model(), outcome) == Removed(old(Model()), user)
      ensures outcome == NotMember || outcome == Ok
      ensures outcome == Ok <==> user in old(members) && old(members)[user].active
      ensures outcome == Ok ==> members == old(members)[user := Row(old(members)[user].role, false)]
      ensures outcome != Ok ==> Model() == old(Model())
    {
      if user !in members || !members[user].active {
        return NotMember;
      }
      members := members[user := members[user].(active := false)];
      BumpMemberCount(-1);
      return Ok;
    }

    method SetMemberRole(user: nat, role: Role) returns (outcome: Outcome)
      modifies this
      ensures (Model(), outcome) == RoleSet(old(Model()), user, role)
      ensures outcome == NotMember || outcome == Ok
      ensures outcome == Ok <==> user in old(members) && old(members)[user].active
      ensures members == if outcome == Ok then old(members)[user := Row(role, true)] else old(members)
    {
      if user !in members || !members[user].active {
        return NotMember;
      }
      members := members[user := Row(role, true)];
      return Ok;
    }

    method TransferOwnership(from: nat, to: nat) returns (outcome: Outcome)
      modifies this
      ensures (Model(), outcome) == Transferred(old(Model()), from, to)
      ensures outcome == NotFound <==>
                !(from in old(members) && old(members)[from].active && old(members)[from].role == Owner)
      ensures outcome == NotMember <==> outcome != NotFound && !(to in old(members) && old(members)[to].active)
      ensures outcome == Ok ==> members == old(members)[from := Row(Admin, true)][to := Row(Owner, true)]
      ensures outcome != Ok ==> Model() == old(Model())
    {
      if from !in members || !members[from].active || members[from].role != Owner {
        return NotFound;
      }
      var saved := members;
      members := members[from := members[from].(role := Admin)];
      if to !in members || !members[to].active {
        members := saved;
        return NotMember;
      }
      members := members[to := members[to].(role := Owner)];
      return Ok;
    }

    method ResolveJoinRequest(user: nat, approve: bool) returns (outcome: Outcome)
      modifies this
      ensures (Model(), outcome) == Resolved(old(Model()), user, approve)
      ensures outcome == NotFound || outcome == Ok
      ensures outcome == Ok <==> user in old(requests) && old(requests)[user] == Pending
      ensures outcome == Ok ==> requests == old(requests)[user := if approve then Approved else Rejected]
      ensures outcome == Ok && approve ==>
                && user in members && members[user].active
                && members[user].role == (if user in old(members) then old(members)[user].role else Member)
      ensures outcome != Ok ==> Model() == old(Model())
    {
      if user !in requests || requests[user] != Pending {
        return NotFound;
      }
      requests := requests[user := if approve then Approved else Rejected];
      if !approve {
        return Ok;
      }
      if user in members {
        doubled := doubled + if members[user].active then 1 else 0;
        members := members[user := members[user].(active := true)];
      } else {
        members := members[user := Row(Member, true)];
      }
      BumpMemberCount(1);
      return Ok;
    }

    method Become(c: Chat)
      modifies this
      ensures Model() == c
    {
      kind, memberCount, subscriberCount, maxMembers := c.kind, c.memberCount, c.subscriberCount, c.maxMembers;
      deleted, members, requests, doubled, leaving := c.deleted, c.members, c.requests, c.doubled, c.leaving;
    }

    method Others(actions: seq<Action>)
      modifies this
      ensures Model() == RunAll(old(Model()), actions)
    {
      for i := 0 to |actions|
        invariant Model() == RunAll(old(Model()), actions[..i])
      {
        var c := Chat(kind, memberCount, subscriberCount, maxMembers, deleted, members, requests, doubled, leaving);
        var d := Step(c, actions[i]);
        Become(d);
        assert actions[..i + 1][..i] == actions[..i];
      }
      assert actions[..|actions|] == actions;
    }

    /** Leaving, with anything at all happening between the removal and the delete. */
    method LeaveChat(request: nat, user: nat, seen: Context, env: seq<Action>, deleteOk: bool)
        returns (outcome: Outcome)
      requires request !in leaving
      modifies this
      ensures var left := Left(old(Model()), request, user, seen);
              && outcome == left.1
              && Model() ==
                 if request in left.0.leaving then Emptied(RunAll(left.0, env), request, deleteOk) else left.0
    {
      if !seen.isMember {
        return Refused;
      }
      if seen.role == Owner && seen.memberCount > 1 {
        return Refused;
      }
      outcome := RemoveMember(user);
      if outcome != Ok || seen.memberCount > 1 {
        return;
      }
      leaving := leaving + {request};
      Others(env);
      if request in leaving {
        leaving := leaving - {request};
        deleted := deleted || deleteOk;
      }
    }

    method KickMember(actor: Context, target: nat, seen: Context) returns (outcome: Outcome)
      modifies this
      ensures (Model(), outcome) == Kicked(old(Model()), actor, target, seen)
      ensures outcome == Refused <==> !actor.isMember || (seen.isMember && Rank(seen.role) <= Rank(actor.role))
      ensures outcome == NotFound <==> actor.isMember && !seen.isMember
      ensures outcome == NotMember || outcome == Ok ==> outcome == Removed(old(Model()), target).1
    {
      if !actor.isMember {
        return Refused;
      }
      if !seen.isMember {
        return NotFound;
      }
      if Rank(seen.role) <= Rank(actor.role) {
        return Refused;
      }
      outcome := RemoveMember(target);
    }
  }
}
