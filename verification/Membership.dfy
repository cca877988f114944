/**
 Tenant membership under optimistic concurrency. A request reads the tenant context,
 perhaps reads a target membership later, decides, and commits against the tenant
 version it first read. Other requests run between any two of these steps.
 */
module Membership {
  import opened Prelude

  type User = string

  datatype Role = Owner | Admin | Member | Viewer | UnknownRole(name: string)

  datatype Status = Provisioning | Active | ProvisioningFailed | Archived

  datatype Permission = TenantRead | TenantUpdate | TenantArchive | MemberAdd | MemberUpdateRole | MemberRemove

  datatype Error =
    | InvalidArgument | NotFound | TenantArchived | TenantNotActive
    | Forbidden | VersionConflict | AlreadyExists | LastOwner

  datatype Membership = Membership(role: Role, version: int)

  datatype Event = Event(kind: string, version: int)

  datatype Tenant = Tenant(
    status: Status,
    version: int,
    settings: string,
    members: map<User, Membership>,
    events: seq<Event>)

  // ----- authorization -----

  predicate IsKnownRole(role: Role) {
    !role.UnknownRole?
  }

  predicate RoleAllows(role: Role, permission: Permission) {
    match role
    case Owner => true
    case Admin => permission != TenantArchive
    case Member => permission == TenantRead
    case Viewer => permission == TenantRead
    case UnknownRole(_) => false
  }

  /** Capability check: a tenant that is not active grants no mutation. */
  function Require(status: Status, role: Role, permission: Permission): Option<Error> {
    if permission != TenantRead && status != Active then
      Some(if status == Archived then TenantArchived else TenantNotActive)
    else if !RoleAllows(role, permission) then Some(Forbidden)
    else None
  }

  /** Role hierarchy: admins neither touch owners nor make them. */
  predicate CanManageMember(actor: Role, target: Role, newRole: Role) {
    match actor
    case Owner => IsKnownRole(newRole)
    case Admin => target != Owner && newRole != Owner && IsKnownRole(newRole)
    case _ => false
  }

  // ----- requests -----

  datatype Command =
    | AddMember(actor: User, user: User, role: Role)
    | UpdateMemberRole(actor: User, user: User, role: Role, expected: int)
    | RemoveMember(actor: User, user: User, expected: int)
    | UpdateTenant(actor: User, expected: int, settings: Option<string>)
    | ArchiveTenant(actor: User, expected: int)

  predicate NeedsTarget(c: Command) {
    c.UpdateMemberRole? || c.RemoveMember?
  }

  /** What the context read returns to one actor. */
  datatype Context = Context(status: Status, version: int, role: Role)

  function GetTenantContext(t: Tenant, actor: User): Result<Context, Error> {
    if actor !in t.members then Err(NotFound)
    else
      var role := t.members[actor].role;
      match Require(t.status, role, TenantRead)
      case Some(e) => Err(e)
      case None => Ok(Context(t.status, t.version, role))
  }

  datatype Change =
    | InsertMember(user: User, member: Membership)
    | ReplaceMember(user: User, member: Membership, expected: int)
    | DeleteMember(user: User, expected: int)
    | ReplaceSettings(settings: string)
    | SetArchived

  datatype Write = Write(actor: User, change: Change, expectedTenant: int, newTenant: int, event: Event)

  datatype Plan = Refuse(error: Error) | NoChange | Commit(write: Write)

  function Writes(ctx: Context, actor: User, change: Change, kind: string): Plan {
    Commit(Write(actor, change, ctx.version, ctx.version + 1, Event(kind, ctx.version + 1)))
  }

  /** The decision a request takes on what it has read. */
  function Decide(c: Command, ctx: Context, target: Option<Membership>): Plan
    requires NeedsTarget(c) ==> target.Some?
  {
    match c
    case AddMember(actor, user, role) =>
      if ctx.status != Active then Refuse(TenantArchived)
      else if Require(ctx.status, ctx.role, MemberAdd).Some? then Refuse(Require(ctx.status, ctx.role, MemberAdd).value)
      else if !CanManageMember(ctx.role, UnknownRole(""), role) then Refuse(Forbidden)
      else Writes(ctx, actor, InsertMember(user, Membership(role, 1)), "tenant.member_added")
    case UpdateMemberRole(actor, user, role, expected) =>
      if Require(ctx.status, ctx.role, MemberUpdateRole).Some? then
        Refuse(Require(ctx.status, ctx.role, MemberUpdateRole).value)
      else if !CanManageMember(ctx.role, target.value.role, role) then Refuse(Forbidden)
      else if expected != target.value.version then Refuse(VersionConflict)
      else Writes(ctx, actor, ReplaceMember(user, Membership(role, target.value.version + 1), expected),
                  "tenant.member_role_changed")
    case RemoveMember(actor, user, expected) =>
      if Require(ctx.status, ctx.role, MemberRemove).Some? then
        Refuse(Require(ctx.status, ctx.role, MemberRemove).value)
      else if !CanManageMember(ctx.role, target.value.role, target.value.role) then Refuse(Forbidden)
      else if expected != target.value.version then Refuse(VersionConflict)
      else Writes(ctx, actor, DeleteMember(user, expected), "tenant.member_removed")
    case UpdateTenant(actor, expected, settings) =>
      if ctx.status != Active then Refuse(TenantArchived)
      else if Require(ctx.status, ctx.role, TenantUpdate).Some? then
        Refuse(Require(ctx.status, ctx.role, TenantUpdate).value)
      else if expected != ctx.version then Refuse(VersionConflict)
      else if settings == None then Refuse(InvalidArgument)
      else Writes(ctx, actor, ReplaceSettings(settings.value), "tenant.updated")
    case ArchiveTenant(actor, expected) =>
      if !RoleAllows(ctx.role, TenantArchive) then Refuse(Forbidden)
      else if expected != ctx.version then Refuse(VersionConflict)
      else if ctx.status == Archived then NoChange
      else Writes(ctx, actor, SetArchived, "tenant.archived")
  }

  predicate BadArgument(c: Command) {
    (c.AddMember? || c.UpdateMemberRole?) && !IsKnownRole(c.role)
  }

  // ----- the repository port -----

  function Owners(t: Tenant): set<User> {
    set u | u in t.members && t.members[u].role == Owner
  }

  function Advance(t: Tenant, w: Write): Tenant {
    t.(version := w.newTenant, events := t.events + [w.event])
  }

  /**
   The commit contract: compare the versions read, keep one owner, and otherwise
   apply the change, the new tenant version and the event together.
   */
  function PortCommit(t: Tenant, w: Write): Result<Tenant, Error> {
    if t.version != w.expectedTenant then Err(VersionConflict)
    else
      match w.change
      case InsertMember(user, member) =>
        if user in t.members then Err(AlreadyExists)
        else Ok(Advance(t, w).(members := t.members[user := member]))
      case ReplaceMember(user, member, expected) =>
        if user !in t.members then Err(NotFound)
        else if t.members[user].version != expected then Err(VersionConflict)
        else if t.members[user].role == Owner && member.role != Owner && |Owners(t)| <= 1 then Err(LastOwner)
        else Ok(Advance(t, w).(members := t.members[user := member]))
      case DeleteMember(user, expected) =>
        if user !in t.members then Err(NotFound)
        else if t.members[user].version != expected then Err(VersionConflict)
        else if t.members[user].role == Owner && |Owners(t)| <= 1 then Err(LastOwner)
        else Ok(Advance(t, w).(members := t.members - {user}))
      case ReplaceSettings(settings) => Ok(Advance(t, w).(settings := settings))
      case SetArchived => Ok(Advance(t, w).(status := Archived))
  }

  /** The PostgreSQL adapter's commit, which checks authority again under lock. */
  function AdapterCommit(t: Tenant, w: Write): Result<Tenant, Error> {
    if w.actor !in t.members then Err(NotFound)
    else
      var role := t.members[w.actor].role;
      match w.change
      case InsertMember(_, member) =>
        if t.status != Active then Err(TenantArchived)
        else if t.version != w.expectedTenant then Err(VersionConflict)
        else if !CanManageMember(role, UnknownRole(""), member.role) then Err(Forbidden)
        else PortCommit(t, w)
      case ReplaceMember(user, member, expected) =>
        if user !in t.members then Err(NotFound)
        else if t.status != Active then Err(TenantArchived)
        else if t.version != w.expectedTenant || t.members[user].version != expected then Err(VersionConflict)
        else if !CanManageMember(role, t.members[user].role, member.role) then Err(Forbidden)
        else PortCommit(t, w)
      case DeleteMember(user, expected) =>
        if user !in t.members then Err(NotFound)
        else if t.status != Active then Err(TenantArchived)
        else if t.version != w.expectedTenant || t.members[user].version != expected then Err(VersionConflict)
        else if !CanManageMember(role, t.members[user].role, t.members[user].role) then Err(Forbidden)
        else PortCommit(t, w)
      case ReplaceSettings(_) =>
        if t.status != Active then Err(TenantArchived)
        else if !RoleAllows(role, TenantUpdate) then Err(Forbidden)
        else PortCommit(t, w)
      case SetArchived =>
        if !RoleAllows(role, TenantArchive) then Err(Forbidden)
        else PortCommit(t, w)
  }

  // ----- the serial reference -----

  /** What a request would plan if all its reads happened at once. */
  function AtomicPlan(t: Tenant, c: Command): Plan {
    if BadArgument(c) then Refuse(InvalidArgument)
    else
      match GetTenantContext(t, c.actor)
      case Err(e) => Refuse(e)
      case Ok(ctx) =>
        if !NeedsTarget(c) then Decide(c, ctx, None)
        else if c.user !in t.members then Refuse(NotFound)
        else Decide(c, ctx, Some(t.members[c.user]))
  }

  /** The whole request executed in one go. */
  function Serial(t: Tenant, c: Command): Result<Tenant, Error> {
    match AtomicPlan(t, c)
    case Refuse(e) => Err(e)
    case NoChange => Ok(t)
    case Commit(w) => PortCommit(t, w)
  }

  /** One committed change: a request, or the onboarding workflow finishing. */
  datatype Action = Request(command: Command) | Onboarding(succeeded: bool)

  function OnboardingEvent(succeeded: bool): string {
    if succeeded then "tenant.activated" else "tenant.onboarding_failed"
  }

  function Apply(t: Tenant, a: Action): Result<Tenant, Error> {
    match a
    case Request(c) => Serial(t, c)
    case Onboarding(succeeded) =>
      if t.status != Provisioning then Err(VersionConflict)
      else Ok(t.(status := if succeeded then Active else ProvisioningFailed,
                 version := t.version + 1,
                 events := t.events + [Event(OnboardingEvent(succeeded), t.version + 1)]))
  }

  /** Actions one after another; a refused one changes nothing. */
  function ApplyAll(t: Tenant, actions: seq<Action>): Tenant {
    if actions == [] then t
    else
      var before := ApplyAll(t, actions[..|actions| - 1]);
      match Apply(before, actions[|actions| - 1])
      case Ok(after) => after
      case Err(_) => before
  }

  // ----- the serial reference, by the tenant's fields -----

  /** Adding a member: who may, on what tenant, and what is then different. */
  lemma AddMemberByFields(t: Tenant, actor: User, user: User, role: Role)
    ensures Serial(t, Command.AddMember(actor, user, role)) ==
            if role !in {Owner, Admin, Member, Viewer} then Err(InvalidArgument)
            else if actor !in t.members then Err(NotFound)
            else if t.members[actor].role !in {Owner, Admin, Member, Viewer} then Err(Forbidden)
            else if t.status != Active then Err(TenantArchived)
            else if t.members[actor].role in {Member, Viewer} || (t.members[actor].role == Admin && role == Owner) then
              Err(Forbidden)
            else if user in t.members then Err(AlreadyExists)
            else
              Ok(Tenant(t.status, t.version + 1, t.settings, t.members[user := Membership(role, 1)],
                        t.events + [Event("tenant.member_added", t.version + 1)]))
  {
  }

  /** Why a change to another's membership is refused before the change itself is looked at. */
  function MemberChangeRefused(t: Tenant, actor: User, user: User): Option<Error> {
    if actor !in t.members then Some(NotFound)
    else if t.members[actor].role !in {Owner, Admin, Member, Viewer} then Some(Forbidden)
    else if user !in t.members then Some(NotFound)
    else if t.status == Archived then Some(TenantArchived)
    else if t.status != Active then Some(TenantNotActive)
    else if t.members[actor].role in {Member, Viewer} then Some(Forbidden)
    else None
  }

  /** Changing a role: only owners touch owners or make them, and one owner always stays. */
  lemma UpdateMemberRoleByFields(t: Tenant, actor: User, user: User, role: Role, expected: int)
    ensures Serial(t, Command.UpdateMemberRole(actor, user, role, expected)) ==
            if role !in {Owner, Admin, Member, Viewer} then Err(InvalidArgument)
            else if MemberChangeRefused(t, actor, user).Some? then Err(MemberChangeRefused(t, actor, user).value)
            else if t.members[actor].role == Admin && (t.members[user].role == Owner || role == Owner) then
              Err(Forbidden)
            else if t.members[user].version != expected then Err(VersionConflict)
            else if t.members[user].role == Owner && role != Owner
                    && |set u | u in t.members && t.members[u].role == Owner| <= 1 then Err(LastOwner)
            else
              Ok(Tenant(t.status, t.version + 1, t.settings, t.members[user := Membership(role, expected + 1)],
                        t.events + [Event("tenant.member_role_changed", t.version + 1)]))
  {
  }

  /** Removing a member: the member is gone, and nobody else is touched. */
  lemma RemoveMemberByFields(t: Tenant, actor: User, user: User, expected: int)
    ensures Serial(t, Command.RemoveMember(actor, user, expected)) ==
            if MemberChangeRefused(t, actor, user).Some? then Err(MemberChangeRefused(t, actor, user).value)
            else if t.members[actor].role == Admin && t.members[user].role == Owner then Err(Forbidden)
            else if t.members[user].role !in {Owner, Admin, Member, Viewer} then Err(Forbidden)
            else if t.members[user].version != expected then Err(VersionConflict)
            else if t.members[user].role == Owner
                    && |set u | u in t.members && t.members[u].role == Owner| <= 1 then Err(LastOwner)
            else
              Ok(Tenant(t.status, t.version + 1, t.settings, t.members - {user},
                        t.events + [Event("tenant.member_removed", t.version + 1)]))
  {
  }

  lemma UpdateTenantByFields(t: Tenant, actor: User, expected: int, settings: Option<string>)
    ensures Serial(t, Command.UpdateTenant(actor, expected, settings)) ==
            if actor !in t.members then Err(NotFound)
            else if t.members[actor].role !in {Owner, Admin, Member, Viewer} then Err(Forbidden)
            else if t.status != Active then Err(TenantArchived)
            else if t.members[actor].role in {Member, Viewer} then Err(Forbidden)
            else if t.version != expected then Err(VersionConflict)
            else if settings == None then Err(InvalidArgument)
            else
              Ok(Tenant(t.status, t.version + 1, settings.value, t.members,
                        t.events + [Event("tenant.updated", t.version + 1)]))
  {
  }

  /** Archiving is the owners' and works in any status; an archived tenant answers as it is. */
  lemma ArchiveTenantByFields(t: Tenant, actor: User, expected: int)
    ensures Serial(t, Command.ArchiveTenant(actor, expected)) ==
            if actor !in t.members then Err(NotFound)
            else if t.members[actor].role != Owner then Err(Forbidden)
            else if t.version != expected then Err(VersionConflict)
            else if t.status == Archived then Ok(t)
            else
              Ok(Tenant(Archived, t.version + 1, t.settings, t.members,
                        t.events + [Event("tenant.archived", t.version + 1)]))
  {
  }

  lemma OnboardingByFields(t: Tenant, succeeded: bool)
    ensures Apply(t, Onboarding(succeeded)) ==
            if t.status != Provisioning then Err(VersionConflict)
            else if succeeded then
              Ok(Tenant(Active, t.version + 1, t.settings, t.members,
                        t.events + [Event("tenant.activated", t.version + 1)]))
            else
              Ok(Tenant(ProvisioningFailed, t.version + 1, t.settings, t.members,
                        t.events + [Event("tenant.onboarding_failed", t.version + 1)]))
  {
  }

  // ----- concurrent sessions -----

  datatype Stage =
    | Opened
    | HasContext(context: Context)
    | Planned(write: Write)
    | Closed(outcome: Result<int, Error>)

  datatype Session = Session(command: Command, stage: Stage)

  datatype World = World(tenant: Tenant, sessions: seq<Session>)

  datatype Label =
    | Open(command: Command)
    | ReadContext(at: nat)
    | ReadTarget(at: nat)
    | Submit(at: nat)
    | Onboard(succeeded: bool)

  function Settle(plan: Plan, version: int): Stage {
    match plan
    case Refuse(e) => Closed(Err(e))
    case NoChange => Closed(Ok(version))
    case Commit(w) => Planned(w)
  }

  function AfterContext(t: Tenant, c: Command): Stage {
    if BadArgument(c) then Closed(Err(InvalidArgument))
    else
      match GetTenantContext(t, c.actor)
      case Err(e) => Closed(Err(e))
      case Ok(ctx) => if NeedsTarget(c) then HasContext(ctx) else Settle(Decide(c, ctx, None), ctx.version)
  }

  function AfterTarget(t: Tenant, c: Command, ctx: Context): Stage
    requires NeedsTarget(c)
  {
    if c.user !in t.members then Closed(Err(NotFound))
    else Settle(Decide(c, ctx, Some(t.members[c.user])), ctx.version)
  }

  /** One atomic step. A label that does not apply leaves the world alone. */
  function Step(w: World, l: Label): World {
    if l.Open? then w.(sessions := w.sessions + [Session(l.command, Opened)])
    else if l.Onboard? then
      match Apply(w.tenant, Onboarding(l.succeeded))
      case Ok(t) => w.(tenant := t)
      case Err(_) => w
    else if l.at >= |w.sessions| then w
    else StepSession(w, l, w.sessions[l.at])
  }

  function StepSession(w: World, l: Label, s: Session): World
    requires !l.Open? && !l.Onboard? && l.at < |w.sessions|
  {
    if l.ReadContext? && s.stage.Opened? then
      w.(sessions := w.sessions[l.at := s.(stage := AfterContext(w.tenant, s.command))])
    else if l.ReadTarget? && s.stage.HasContext? && NeedsTarget(s.command) then
      w.(sessions := w.sessions[l.at := s.(stage := AfterTarget(w.tenant, s.command, s.stage.context))])
    else if l.Submit? && s.stage.Planned? then
      match PortCommit(w.tenant, s.stage.write)
      case Ok(t) => World(t, w.sessions[l.at := s.(stage := Closed(Ok(s.stage.write.newTenant)))])
      case Err(e) => w.(sessions := w.sessions[l.at := s.(stage := Closed(Err(e)))])
    else w
  }

  function Exec(w: World, run: seq<Label>): World {
    if run == [] then w else Step(Exec(w, run[..|run| - 1]), run[|run| - 1])
  }

  /** A snapshot is of the past, and is still exact while the version has not moved. */
  ghost predicate SessionOk(t: Tenant, s: Session) {
    match s.stage
    case Opened => true
    case HasContext(ctx) =>
      && NeedsTarget(s.command) && !BadArgument(s.command)
      && ctx.version <= t.version
      && (ctx.version == t.version ==> GetTenantContext(t, s.command.actor) == Ok(ctx))
    case Planned(w) =>
      && w.expectedTenant <= t.version
      && (w.expectedTenant == t.version ==> AtomicPlan(t, s.command) == Commit(w))
    case Closed(_) => true
  }

  ghost predicate Inv(w: World) {
    forall i | 0 <= i < |w.sessions| :: SessionOk(w.tenant, w.sessions[i])
  }

  lemma DecideWritesContextVersion(c: Command, ctx: Context, target: Option<Membership>)
    requires NeedsTarget(c) ==> target.Some?
    ensures Decide(c, ctx, target).Commit? ==>
      var w := Decide(c, ctx, target).write;
      && w.expectedTenant == ctx.version && w.newTenant == ctx.version + 1
      && w.event.version == w.newTenant && w.actor == c.actor
  {
  }

  lemma AtomicPlanWrites(t: Tenant, c: Command)
    ensures AtomicPlan(t, c).Commit? ==>
      var w := AtomicPlan(t, c).write;
      && w.expectedTenant == t.version && w.newTenant == t.version + 1
      && w.event.version == w.newTenant && w.actor == c.actor
  {
  }

  lemma AfterContextOk(t: Tenant, c: Command)
    ensures SessionOk(t, Session(c, AfterContext(t, c)))
  {
  }

  lemma AfterTargetOk(t: Tenant, c: Command, ctx: Context)
    requires SessionOk(t, Session(c, HasContext(ctx)))
    ensures SessionOk(t, Session(c, AfterTarget(t, c, ctx)))
  {
    if c.user in t.members {
      DecideWritesContextVersion(c, ctx, Some(t.members[c.user]));
    }
  }

  /** Every change moves the tenant version up by one and records one event with it. */
  ghost predicate Moved(t: Tenant, t': Tenant) {
    && t'.version == t.version + 1
    && |t'.events| == |t.events| + 1
    && t'.events[..|t.events|] == t.events
    && t'.events[|t.events|].version == t'.version
  }

  lemma SerialMoves(t: Tenant, c: Command)
    ensures Serial(t, c).Ok? ==> Serial(t, c).value == t || Moved(t, Serial(t, c).value)
  {
    AtomicPlanWrites(t, c);
  }

  lemma ApplyMoves(t: Tenant, a: Action)
    ensures Apply(t, a).Ok? ==> Apply(t, a).value == t || Moved(t, Apply(t, a).value)
  {
    if a.Request? {
      SerialMoves(t, a.command);
    }
  }

  /** A successful commit is the whole request executed serially on the current tenant. */
  lemma CommitIsSerial(w: World, i: nat)
    requires Inv(w) && i < |w.sessions| && w.sessions[i].stage.Planned?
    requires PortCommit(w.tenant, w.sessions[i].stage.write).Ok?
    ensures Serial(w.tenant, w.sessions[i].command) == PortCommit(w.tenant, w.sessions[i].stage.write)
  {
    assert SessionOk(w.tenant, w.sessions[i]);
  }

  /** The action a label commits, if it changes the tenant. */
  function Committed(w: World, l: Label): seq<Action> {
    if l.Onboard? then
      (if Apply(w.tenant, Onboarding(l.succeeded)).Ok? then [Onboarding(l.succeeded)] else [])
    else if l.Submit? && l.at < |w.sessions| && w.sessions[l.at].stage.Planned?
            && PortCommit(w.tenant, w.sessions[l.at].stage.write).Ok? then [Request(w.sessions[l.at].command)]
    else []
  }

  lemma StepIsSerial(w: World, l: Label)
    requires Inv(w)
    ensures Step(w, l).tenant == ApplyAll(w.tenant, Committed(w, l))
    ensures forall a :: a in Committed(w, l) ==> Apply(w.tenant, a).Ok?
  {
    if l.Submit? && Committed(w, l) != [] {
      CommitIsSerial(w, l.at);
    }
    if Committed(w, l) != [] {
      var a := Committed(w, l)[0];
      assert Committed(w, l) == [a] && [a][..0] == [];
      assert ApplyAll(w.tenant, []) == w.tenant;
    }
  }

  lemma TenantChangeMoves(w: World, l: Label)
    requires Inv(w)
    ensures Step(w, l).tenant == w.tenant || Moved(w.tenant, Step(w, l).tenant)
  {
    if l.Onboard? {
      ApplyMoves(w.tenant, Onboarding(l.succeeded));
    } else if l.Submit? && Committed(w, l) != [] {
      CommitIsSerial(w, l.at);
      SerialMoves(w.tenant, w.sessions[l.at].command);
    }
  }

  lemma StepKeepsInv(w: World, l: Label)
    requires Inv(w)
    ensures Inv(Step(w, l))
  {
    var w' := Step(w, l);
    TenantChangeMoves(w, l);
    forall i | 0 <= i < |w'.sessions| ensures SessionOk(w'.tenant, w'.sessions[i]) {
      if i < |w.sessions| {
        assert SessionOk(w.tenant, w.sessions[i]);
        var s := w.sessions[i];
        if l == ReadContext(i) {
          AfterContextOk(w.tenant, s.command);
        } else if l == ReadTarget(i) && s.stage.HasContext? {
          AfterTargetOk(w.tenant, s.command, s.stage.context);
        }
      }
    }
  }

  /** The actions committed along a run, in commit order. */
  function History(w: World, run: seq<Label>): seq<Action> {
    if run == [] then []
    else
      History(w, run[..|run| - 1]) + Committed(Exec(w, run[..|run| - 1]), run[|run| - 1])
  }

  lemma {:induction false} ApplyAllAppend(t: Tenant, a: seq<Action>, b: seq<Action>)
    ensures ApplyAll(t, a + b) == ApplyAll(ApplyAll(t, a), b)
  {
    if b == [] {
      assert a + b == a;
    } else {
      assert (a + b)[..|a + b| - 1] == a + b[..|b| - 1];
      ApplyAllAppend(t, a, b[..|b| - 1]);
    }
  }

  /**
   Refinement: whatever the interleaving, the tenant is what executing the committed
   requests one after another, each in a single atomic step, would have produced.
   */
  lemma {:induction false} InterleavingIsSerial(w: World, run: seq<Label>)
    requires Inv(w)
    ensures Inv(Exec(w, run))
    ensures Exec(w, run).tenant == ApplyAll(w.tenant, History(w, run))
  {
    if run != [] {
      var init, last := run[..|run| - 1], run[|run| - 1];
      InterleavingIsSerial(w, init);
      StepKeepsInv(Exec(w, init), last);
      StepIsSerial(Exec(w, init), last);
      ApplyAllAppend(w.tenant, History(w, init), Committed(Exec(w, init), last));
    }
  }

  /** The adapter's second authority check never fires on a write whose version matches. */
  lemma RecheckIsRedundant(w: World, run: seq<Label>, i: nat)
    requires Inv(w)
    requires var e := Exec(w, run);
             && i < |e.sessions| && e.sessions[i].stage.Planned?
             && e.sessions[i].stage.write.expectedTenant == e.tenant.version
    ensures var e := Exec(w, run);
            AdapterCommit(e.tenant, e.sessions[i].stage.write) == PortCommit(e.tenant, e.sessions[i].stage.write)
  {
    InterleavingIsSerial(w, run);
    var e := Exec(w, run);
    assert SessionOk(e.tenant, e.sessions[i]);
  }

  // ----- safety over whole runs -----

  ghost predicate ActsAsOwner(t: Tenant, c: Command) {
    c.actor in t.members && t.members[c.actor].role == Owner
  }

  /** Only an owner's request changes who the owners are. */
  lemma NonOwnerKeepsOwners(t: Tenant, c: Command)
    requires Serial(t, c).Ok? && !ActsAsOwner(t, c)
    ensures Owners(Serial(t, c).value) == Owners(t)
  {
  }

  /** A committed request is one that an owner or an admin makes. */
  lemma LowRolesCommitNothing(t: Tenant, c: Command)
    requires Serial(t, c).Ok?
    ensures c.actor in t.members && t.members[c.actor].role in {Owner, Admin}
  {
  }

  /** What holds of one action applied in a run: it succeeds, with authority, and non-owners keep the owners. */
  ghost predicate Authorised(t: Tenant, a: Action) {
    && Apply(t, a).Ok?
    && (a.Request? ==>
          && a.command.actor in t.members && t.members[a.command.actor].role in {Owner, Admin}
          && (t.members[a.command.actor].role != Owner ==> Owners(Apply(t, a).value) == Owners(t)))
    && (a.Onboarding? ==> Apply(t, a).value.members == t.members)
  }

  lemma AppliedIsAuthorised(t: Tenant, a: Action)
    requires Apply(t, a).Ok?
    ensures Authorised(t, a)
  {
    if a.Request? {
      LowRolesCommitNothing(t, a.command);
      if !ActsAsOwner(t, a.command) {
        NonOwnerKeepsOwners(t, a.command);
      }
    }
  }

  /**
   Over every interleaved run: each committed action succeeds on the tenant it commits
   to; each committed request is made by someone who is an owner or an admin there, so
   members and viewers commit nothing; and a commit of anyone but an owner keeps the set
   of owners, whatever the others do in the same run.
   */
  lemma {:induction false} EveryCommitIsAuthorised(w: World, run: seq<Label>)
    requires Inv(w)
    ensures var h := History(w, run);
            forall k | 0 <= k < |h| ::
              && Authorised(ApplyAll(w.tenant, h[..k]), h[k])
              && Apply(ApplyAll(w.tenant, h[..k]), h[k]) == Ok(ApplyAll(w.tenant, h[..k + 1]))
  {
    if run != [] {
      var init, last := run[..|run| - 1], run[|run| - 1];
      var before, h := History(w, init), History(w, run);
      EveryCommitIsAuthorised(w, init);
      InterleavingIsSerial(w, init);
      StepIsSerial(Exec(w, init), last);
      forall k | 0 <= k < |h|
        ensures Authorised(ApplyAll(w.tenant, h[..k]), h[k])
        ensures Apply(ApplyAll(w.tenant, h[..k]), h[k]) == Ok(ApplyAll(w.tenant, h[..k + 1]))
      {
        if k < |before| {
          assert h[..k] == before[..k] && h[..k + 1] == before[..k + 1] && h[k] == before[k];
        } else {
          assert h[..k] == before && h[k] == Committed(Exec(w, init), last)[0];
          AppliedIsAuthorised(Exec(w, init).tenant, h[k]);
          assert h[..k + 1][..k] == before;
        }
      }
    }
  }

  lemma SetWithoutOne<T>(s: set<T>, x: T)
    requires x in s && |s| > 1
    ensures |s - {x}| >= 1
  {
    assert s == (s - {x}) + {x};
  }

  lemma ReplaceKeepsAnOwner(t: Tenant, members: map<User, Membership>, user: User, member: Membership)
    requires members == t.members[user := member]
    requires user in Owners(t) && member.role != Owner ==> |Owners(t)| > 1
    requires |Owners(t)| >= 1
    ensures |Owners(t.(members := members))| >= 1
  {
    var t' := t.(members := members);
    if user in Owners(t) && member.role != Owner {
      SetWithoutOne(Owners(t), user);
      assert Owners(t') == Owners(t) - {user};
    } else if member.role == Owner {
      assert user in Owners(t');
    } else {
      assert Owners(t') == Owners(t);
    }
  }

  lemma DeleteKeepsAnOwner(t: Tenant, user: User)
    requires user in Owners(t) ==> |Owners(t)| > 1
    requires |Owners(t)| >= 1
    ensures |Owners(t.(members := t.members - {user}))| >= 1
  {
    assert Owners(t.(members := t.members - {user})) == Owners(t) - {user};
    if user in Owners(t) {
      SetWithoutOne(Owners(t), user);
    } else {
      assert Owners(t) - {user} == Owners(t);
    }
  }

  /** No commit removes or demotes the last owner. */
  lemma PortKeepsAnOwner(t: Tenant, w: Write)
    requires PortCommit(t, w).Ok? && |Owners(t)| >= 1
    ensures |Owners(PortCommit(t, w).value)| >= 1
  {
    var t' := PortCommit(t, w).value;
    match w.change
    case InsertMember(user, member) =>
      ReplaceKeepsAnOwner(t, t'.members, user, member);
      assert Owners(t') == Owners(t.(members := t'.members));
    case ReplaceMember(user, member, _) =>
      ReplaceKeepsAnOwner(t, t'.members, user, member);
      assert Owners(t') == Owners(t.(members := t'.members));
    case DeleteMember(user, _) =>
      DeleteKeepsAnOwner(t, user);
      assert Owners(t') == Owners(t.(members := t'.members));
    case _ =>
      assert Owners(t') == Owners(t);
  }

  lemma SerialKeepsAnOwner(t: Tenant, c: Command)
    requires Serial(t, c).Ok? && |Owners(t)| >= 1
    ensures |Owners(Serial(t, c).value)| >= 1
  {
    if AtomicPlan(t, c).Commit? {
      PortKeepsAnOwner(t, AtomicPlan(t, c).write);
    }
  }

  /** Event versions count up by one and end at the tenant version. */
  predicate Consecutive(t: Tenant) {
    forall k | 0 <= k < |t.events| :: t.events[k].version == t.version - |t.events| + k + 1
  }

  lemma MovedKeepsConsecutive(t: Tenant, t': Tenant)
    requires Consecutive(t) && Moved(t, t')
    ensures Consecutive(t')
  {
    forall k | 0 <= k < |t'.events| ensures t'.events[k].version == t'.version - |t'.events| + k + 1 {
      if k < |t.events| {
        assert t'.events[..|t.events|][k] == t.events[k];
      }
    }
  }

  /** No action in the list is an owner's request on the state it is applied to. */
  ghost predicate NoOwnerActs(t: Tenant, actions: seq<Action>) {
    forall k | 0 <= k < |actions| && actions[k].Request? :: !ActsAsOwner(ApplyAll(t, actions[..k]), actions[k].command)
  }

  lemma {:induction false} ApplyAllIsSafe(t: Tenant, actions: seq<Action>)
    ensures |Owners(t)| >= 1 ==> |Owners(ApplyAll(t, actions))| >= 1
    ensures Consecutive(t) ==> Consecutive(ApplyAll(t, actions))
    ensures t.version <= ApplyAll(t, actions).version
    ensures t.events <= ApplyAll(t, actions).events
    ensures NoOwnerActs(t, actions) ==> Owners(ApplyAll(t, actions)) == Owners(t)
  {
    if actions != [] {
      var n := |actions| - 1;
      var init, a := actions[..n], actions[n];
      ApplyAllIsSafe(t, init);
      var before := ApplyAll(t, init);
      if Apply(before, a).Ok? {
        ApplyMoves(before, a);
        if Consecutive(before) && Apply(before, a).value != before {
          MovedKeepsConsecutive(before, Apply(before, a).value);
        }
        if a.Request? {
          if |Owners(before)| >= 1 {
            SerialKeepsAnOwner(before, a.command);
          }
          if !ActsAsOwner(before, a.command) {
            NonOwnerKeepsOwners(before, a.command);
          }
        } else {
          assert Owners(Apply(before, a).value) == Owners(before);
        }
      }
      assert forall k | 0 <= k < n :: init[..k] == actions[..k];
    }
  }

  /**
   Safety of every interleaved run: a tenant keeps an owner, its event log is only
   extended and carries consecutive versions, and unless an owner commits something
   the set of owners stays as it was.
   */
  lemma RunIsSafe(w: World, run: seq<Label>)
    requires Inv(w) && |Owners(w.tenant)| >= 1 && Consecutive(w.tenant)
    ensures var t := Exec(w, run).tenant;
            && |Owners(t)| >= 1
            && Consecutive(t)
            && w.tenant.version <= t.version
            && w.tenant.events <= t.events
            && (NoOwnerActs(w.tenant, History(w, run)) ==> Owners(t) == Owners(w.tenant))
  {
    InterleavingIsSerial(w, run);
    ApplyAllIsSafe(w.tenant, History(w, run));
  }

  /** A tenant as creation leaves it: provisioning, one owner, one event. */
  function NewTenant(creator: User, settings: string): Tenant {
    Tenant(Provisioning, 1, settings, map[creator := Membership(Owner, 1)], [Event("tenant.created", 1)])
  }

  /** From creation on, in every reachable state of every interleaving. */
  lemma ReachableTenantIsSafe(creator: User, settings: string, run: seq<Label>)
    ensures var t := Exec(World(NewTenant(creator, settings), []), run).tenant;
            && |Owners(t)| >= 1
            && |t.events| == t.version
            && forall k | 0 <= k < |t.events| :: t.events[k].version == k + 1
  {
    var start := NewTenant(creator, settings);
    assert Owners(start) == {creator};
    RunIsSafe(World(start, []), run);
    InterleavingIsSerial(World(start, []), run);
    EventsCountVersions(start, History(World(start, []), run));
  }

  /**
   A tenant that is still provisioning is at version 1, so the onboarding event it ends
   with is the second one.
   */
  lemma ProvisioningIsFirstVersion(creator: User, settings: string, run: seq<Label>)
    ensures var t := Exec(World(NewTenant(creator, settings), []), run).tenant;
            t.status == Provisioning ==> t.version == 1 && t == NewTenant(creator, settings)
  {
    var start := NewTenant(creator, settings);
    InterleavingIsSerial(World(start, []), run);
    StaysProvisioning(start, History(World(start, []), run));
  }

  lemma {:induction false} StaysProvisioning(t: Tenant, actions: seq<Action>)
    ensures ApplyAll(t, actions).status == Provisioning ==> ApplyAll(t, actions) == t
  {
    if actions != [] {
      var n := |actions| - 1;
      StaysProvisioning(t, actions[..n]);
      ProvisioningChangesStatus(ApplyAll(t, actions[..n]), actions[n]);
    }
  }

  /** No action changes a tenant and leaves it provisioning. */
  lemma ProvisioningChangesStatus(t: Tenant, a: Action)
    ensures Apply(t, a).Ok? && Apply(t, a).value.status == Provisioning ==> Apply(t, a).value == t
  {
  }

  lemma {:induction false} EventsCountVersions(t: Tenant, actions: seq<Action>)
    ensures ApplyAll(t, actions).version - |ApplyAll(t, actions).events| == t.version - |t.events|
  {
    if actions != [] {
      var n := |actions| - 1;
      EventsCountVersions(t, actions[..n]);
      ApplyMoves(ApplyAll(t, actions[..n]), actions[n]);
    }
  }

  // ----- the service methods -----

  /** Asking the port to commit a plan, or answering without it. */
  function Conclude(stage: Stage, t: Tenant): Result<int, Error> {
    match stage
    case Planned(w) => (match PortCommit(t, w) case Ok(_) => Ok(w.newTenant) case Err(e) => Err(e))
    case Closed(outcome) => outcome
    case _ => Err(InvalidArgument)
  }

  /** The answer to a request whose context, target and commit meet these three tenant states. */
  function Answer(c: Command, first: Tenant, second: Tenant, third: Tenant): Result<int, Error> {
    match AfterContext(first, c)
    case HasContext(ctx) =>
      if NeedsTarget(c) then Conclude(AfterTarget(second, c, ctx), third) else Err(InvalidArgument)
    case stage => Conclude(stage, third)
  }

  /** With no interference the answer is the serial one, error for error. */
  lemma QuietAnswerIsSerial(c: Command, t: Tenant)
    ensures Answer(c, t, t, t) == match Serial(t, c) case Ok(t') => Ok(t'.version) case Err(e) => Err(e)
  {
    AtomicPlanWrites(t, c);
  }

  /** New requests open, and onboarding ends, without touching other sessions. */
  lemma OutsideSteps(w: World, c: Command, succeeded: bool)
    ensures Step(w, Open(c)) == World(w.tenant, w.sessions + [Session(c, Opened)])
    ensures Step(w, Onboard(succeeded)).sessions == w.sessions
    ensures w.tenant.status != Provisioning ==> Step(w, Onboard(succeeded)) == w
    ensures w.tenant.status == Provisioning ==>
              var t := Step(w, Onboard(succeeded)).tenant;
              && t.status == (if succeeded then Active else ProvisioningFailed)
              && t.version == w.tenant.version + 1 && t.members == w.tenant.members
  {
  }

  /** The three steps of one session. */
  function SessionRun(i: nat): seq<Label> {
    [ReadContext(i)] + [ReadTarget(i)] + [Submit(i)]
  }

  /** A session that runs alone is the serial request: same tenant, same answer. */
  lemma SessionAloneIsSerial(w: World, i: nat)
    requires i < |w.sessions| && w.sessions[i].stage.Opened?
    ensures var w', c := Exec(w, SessionRun(i)), w.sessions[i].command;
            && i < |w'.sessions|
            && match Serial(w.tenant, c)
               case Ok(t) => w'.tenant == t && w'.sessions[i].stage == Closed(Ok(t.version))
               case Err(e) => w'.tenant == w.tenant && w'.sessions[i].stage == Closed(Err(e))
  {
    var c := w.sessions[i].command;
    var a, b, d := [ReadContext(i)], [ReadContext(i)] + [ReadTarget(i)], SessionRun(i);
    assert a[..0] == [] && b[..1] == a && d[..2] == b;
    assert Exec(w, []) == w;
    assert Exec(w, a) == Step(w, ReadContext(i));
    assert Exec(w, b) == Step(Exec(w, a), ReadTarget(i));
    assert Exec(w, d) == Step(Exec(w, b), Submit(i));
    QuietAnswerIsSerial(c, w.tenant);
    AtomicPlanWrites(w.tenant, c);
  }

  /**
   A request whose tenant moved on after its first read commits nothing, and where it
   would have committed it is told of a conflict.
   */
  lemma MovedTenantConflicts(c: Command, first: Tenant, second: Tenant, third: Tenant)
    requires third.version != first.version
    ensures Answer(c, first, second, third).Ok? ==> first.status == Archived && c.ArchiveTenant?
    ensures Serial(first, c).Ok? && Serial(first, c).value != first && (NeedsTarget(c) ==> second == first) ==>
              Answer(c, first, second, third) == Err(VersionConflict)
  {
    match c
    case AddMember(_, _, _) =>
    case UpdateMemberRole(_, _, _, _) =>
    case RemoveMember(_, _, _) =>
    case UpdateTenant(_, _, _) =>
    case ArchiveTenant(_, _) =>
  }

  /** The service over one tenant row; `others` are actions of concurrent requests. */
  class TenantService {
    var tenant: Tenant

    constructor (tenant: Tenant)
      ensures this.tenant == tenant
    {
      this.tenant := tenant;
    }

    /** Concurrent requests commit while this one is between two of its own steps. */
    method Interfere(others: seq<Action>)
      modifies this
      ensures tenant == ApplyAll(old(tenant), others)
    {
      tenant := ApplyAll(tenant, others);
    }

    method SubmitWrite(write: Write) returns (r: Result<int, Error>)
      modifies this
      ensures match PortCommit(old(tenant), write)
              case Ok(t) => tenant == t && r == Ok(write.newTenant)
              case Err(e) => tenant == old(tenant) && r == Err(e)
    {
      match PortCommit(tenant, write)
      case Ok(t) =>
        tenant := t;
        return Ok(write.newTenant);
      case Err(e) =>
        return Err(e);
    }

    method AddMember(actor: User, user: User, role: Role, others: seq<Action>) returns (r: Result<int, Error>)
      modifies this
      ensures var before := ApplyAll(old(tenant), others);
              match r
              case Ok(v) => Serial(before, Command.AddMember(actor, user, role)) == Ok(tenant) && v == tenant.version
              case Err(_) => tenant == before
      ensures var before := ApplyAll(old(tenant), others);
              r.Ok? ==>
                && user !in before.members
                && tenant == Tenant(before.status, before.version + 1, before.settings,
                                    before.members[user := Membership(role, 1)],
                                    before.events + [Event("tenant.member_added", before.version + 1)])
      ensures var before := ApplyAll(old(tenant), others);
              r == Answer(Command.AddMember(actor, user, role), old(tenant), before, before)
    {
      ghost var start := tenant;
      ghost var command := Command.AddMember(actor, user, role);
      var current: Result<Context, Error> := Err(InvalidArgument);
      if IsKnownRole(role) {
        current := GetTenantContext(tenant, actor);
      }
      Interfere(others);
      ApplyAllIsSafe(start, others);
      if current.Err? {
        return Err(current.error);
      }
      var ctx := current.value;
      if ctx.status != Active {
        return Err(TenantArchived);
      }
      var denied := Require(ctx.status, ctx.role, MemberAdd);
      if denied.Some? {
        return Err(denied.value);
      }
      if !CanManageMember(ctx.role, UnknownRole(""), role) {
        return Err(Forbidden);
      }
      SnapshotStillExact(start, others);
      r := SubmitWrite(Write(actor, InsertMember(user, Membership(role, 1)), ctx.version, ctx.version + 1,
                             Event("tenant.member_added", ctx.version + 1)));
    }

    method UpdateMemberRole(actor: User, user: User, role: Role, expected: int, others: seq<Action>, later: seq<Action>)
      returns (r: Result<int, Error>)
      modifies this
      ensures var before := ApplyAll(ApplyAll(old(tenant), others), later);
              match r
              case Ok(v) =>
                && Serial(before, Command.UpdateMemberRole(actor, user, role, expected)) == Ok(tenant)
                && v == tenant.version
              case Err(_) => tenant == before
      ensures var before := ApplyAll(ApplyAll(old(tenant), others), later);
              r.Ok? ==>
                && user in before.members && before.members[user].version == expected
                && tenant == Tenant(before.status, before.version + 1, before.settings,
                                    before.members[user := Membership(role, expected + 1)],
                                    before.events + [Event("tenant.member_role_changed", before.version + 1)])
      ensures var middle := ApplyAll(old(tenant), others);
              r == Answer(Command.UpdateMemberRole(actor, user, role, expected),
                          old(tenant), middle, ApplyAll(middle, later))
    {
      ghost var start := tenant;
      var current: Result<Context, Error> := Err(InvalidArgument);
      if IsKnownRole(role) {
        current := GetTenantContext(tenant, actor);
      }
      Interfere(others);
      ghost var middle := tenant;
      var found := if user in tenant.members then Some(tenant.members[user]) else None;
      Interfere(later);
      if current.Err? {
        return Err(current.error);
      }
      var ctx := current.value;
      if found == None {
        return Err(NotFound);
      }
      var target := found.value;
      var denied := Require(ctx.status, ctx.role, MemberUpdateRole);
      if denied.Some? {
        return Err(denied.value);
      }
      if !CanManageMember(ctx.role, target.role, role) {
        return Err(Forbidden);
      }
      if expected != target.version {
        return Err(VersionConflict);
      }
      SnapshotStillExact(start, others);
      SnapshotStillExact(middle, later);
      r := SubmitWrite(Write(actor, ReplaceMember(user, Membership(role, target.version + 1), expected),
                             ctx.version, ctx.version + 1, Event("tenant.member_role_changed", ctx.version + 1)));
    }

    method RemoveMember(actor: User, user: User, expected: int, others: seq<Action>, later: seq<Action>)
      returns (r: Result<int, Error>)
      modifies this
      ensures var before := ApplyAll(ApplyAll(old(tenant), others), later);
              match r
              case Ok(v) =>
                Serial(before, Command.RemoveMember(actor, user, expected)) == Ok(tenant) && v == tenant.version
              case Err(_) => tenant == before
      ensures var before := ApplyAll(ApplyAll(old(tenant), others), later);
              r.Ok? ==>
                && user in before.members && before.members[user].version == expected
                && tenant == Tenant(before.status, before.version + 1, before.settings, before.members - {user},
                                    before.events + [Event("tenant.member_removed", before.version + 1)])
      ensures var middle := ApplyAll(old(tenant), others);
              r == Answer(Command.RemoveMember(actor, user, expected), old(tenant), middle, ApplyAll(middle, later))
    {
      ghost var start := tenant;
      var current := GetTenantContext(tenant, actor);
      Interfere(others);
      ghost var middle := tenant;
      var found := if user in tenant.members then Some(tenant.members[user]) else None;
      Interfere(later);
      if current.Err? {
        return Err(current.error);
      }
      var ctx := current.value;
      if found == None {
        return Err(NotFound);
      }
      var target := found.value;
      var denied := Require(ctx.status, ctx.role, MemberRemove);
      if denied.Some? {
        return Err(denied.value);
      }
      if !CanManageMember(ctx.role, target.role, target.role) {
        return Err(Forbidden);
      }
      if expected != target.version {
        return Err(VersionConflict);
      }
      SnapshotStillExact(start, others);
      SnapshotStillExact(middle, later);
      r := SubmitWrite(Write(actor, DeleteMember(user, expected),
                             ctx.version, ctx.version + 1, Event("tenant.member_removed", ctx.version + 1)));
    }

    method UpdateTenant(actor: User, expected: int, settings: Option<string>, others: seq<Action>)
      returns (r: Result<int, Error>)
      modifies this
      ensures var before := ApplyAll(old(tenant), others);
              match r
              case Ok(v) =>
                Serial(before, Command.UpdateTenant(actor, expected, settings)) == Ok(tenant) && v == tenant.version
              case Err(_) => tenant == before
      ensures var before := ApplyAll(old(tenant), others);
              r.Ok? ==>
                && settings.Some?
                && tenant == Tenant(before.status, before.version + 1, settings.value, before.members,
                                    before.events + [Event("tenant.updated", before.version + 1)])
      ensures var before := ApplyAll(old(tenant), others);
              r == Answer(Command.UpdateTenant(actor, expected, settings), old(tenant), before, before)
    {
      ghost var start := tenant;
      var current := GetTenantContext(tenant, actor);
      Interfere(others);
      if current.Err? {
        return Err(current.error);
      }
      var ctx := current.value;
      if ctx.status != Active {
        return Err(TenantArchived);
      }
      var denied := Require(ctx.status, ctx.role, TenantUpdate);
      if denied.Some? {
        return Err(denied.value);
      }
      if expected != ctx.version {
        return Err(VersionConflict);
      }
      if settings == None {
        return Err(InvalidArgument);
      }
      SnapshotStillExact(start, others);
      r := SubmitWrite(Write(actor, ReplaceSettings(settings.value), expected, ctx.version + 1,
                             Event("tenant.updated", ctx.version + 1)));
    }

    method ArchiveTenant(actor: User, expected: int, others: seq<Action>) returns (r: Result<int, Error>)
      modifies this
      ensures var before := ApplyAll(old(tenant), others);
              match r
              case Ok(v) =>
                && Serial(before, Command.ArchiveTenant(actor, expected)) == Ok(tenant)
                && v == tenant.version && tenant.status == Archived
              case Err(_) => tenant == before
      ensures var before := ApplyAll(old(tenant), others);
              r.Ok? && before.status != Archived ==>
                tenant == Tenant(Archived, before.version + 1, before.settings, before.members,
                                 before.events + [Event("tenant.archived", before.version + 1)])
      ensures var before := ApplyAll(old(tenant), others);
              r == Answer(Command.ArchiveTenant(actor, expected), old(tenant), before, before)
    {
      ghost var start := tenant;
      var current := GetTenantContext(tenant, actor);
      Interfere(others);
      if current.Err? {
        return Err(current.error);
      }
      var ctx := current.value;
      if !RoleAllows(ctx.role, TenantArchive) {
        return Err(Forbidden);
      }
      if expected != ctx.version {
        return Err(VersionConflict);
      }
      if ctx.status == Archived {
        ArchivedIsFinal(start, others);
        return Ok(ctx.version);
      }
      SnapshotStillExact(start, others);
      r := SubmitWrite(Write(actor, SetArchived, expected, ctx.version + 1, Event("tenant.archived", ctx.version + 1)));
    }
  }

  /** While the version has not moved, neither has anything else. */
  lemma {:induction false} SnapshotStillExact(t: Tenant, others: seq<Action>)
    ensures t.version <= ApplyAll(t, others).version
    ensures ApplyAll(t, others).version == t.version ==> ApplyAll(t, others) == t
  {
    if others != [] {
      var n := |others| - 1;
      SnapshotStillExact(t, others[..n]);
      ApplyMoves(ApplyAll(t, others[..n]), others[n]);
    }
  }

  /** An archived tenant never changes again. */
  lemma {:induction false} ArchivedIsFinal(t: Tenant, others: seq<Action>)
    requires t.status == Archived
    ensures ApplyAll(t, others) == t
  {
    if others != [] {
      var n := |others| - 1;
      ArchivedIsFinal(t, others[..n]);
      if others[n].Request? {
        ArchivedRefuses(t, others[n].command);
      }
    }
  }

  lemma ArchivedRefuses(t: Tenant, c: Command)
    requires t.status == Archived
    ensures Serial(t, c).Err? || Serial(t, c) == Ok(t)
  {
  }
}
