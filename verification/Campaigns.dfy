/**
 * The lifecycle of advertising campaigns: `AdCampaignService` over the `AdCampaign` table
 * (src/modules/advertising).  The texts of a campaign, which no rule reads, are left out.
 */
module Campaigns {
  import opened Wrappers

  type Id = nat

  datatype Status = Draft | Active | Paused | Ended

  datatype Source = Direct | Marketplace | External | OtherSource

  datatype Placement =
    | HomeServicesCarousel | HomeTodayOffers | HomeContentCarousel | HomeFeaturedLarge
    | HomeInterstitial | PaymentEntryInterstitial | OtherPlacement

  datatype Campaign = Campaign(
    status: Status,
    source: Source,
    placement: Placement,
    slotId: Option<string>,
    buildingId: Option<string>,
    priority: int,
    startsAt: int,
    endsAt: int,
    targetCountry: Option<string>,
    targetCity: Option<string>,
    imageUrl: string,
    createdAt: int)

  datatype Slot = Slot(isActive: bool, fullScreen: bool, placement: Placement, page: string, zone: string)

  /** What the other tables and the image check answer during one call. */
  datatype Environment = Environment(slots: map<string, Slot>, buildings: set<string>, imageOk: bool)

  datatype Input = Input(
    source: Source,
    placement: Placement,
    priority: Option<int>,
    startsAt: int,
    endsAt: int,
    imageUrl: string,
    targetCountry: Option<string>,
    targetCity: Option<string>,
    buildingId: Option<string>,
    slotId: string)

  /** An outer None is a field the caller left out; an inner None is an explicit null. */
  datatype Change = Change(
    source: Option<Source>,
    placement: Option<Placement>,
    priority: Option<int>,
    startsAt: Option<int>,
    endsAt: Option<int>,
    imageUrl: Option<string>,
    targetCountry: Option<Option<string>>,
    targetCity: Option<Option<string>>,
    buildingId: Option<Option<string>>,
    slotId: Option<string>)

  datatype Error =
    | UnknownSource | UnknownPlacement | EndsBeforeStart | NegativePriority | UnknownSlot | InactiveSlot
    | NotFullScreen | NotDirect | IncompatibleSlot | UnknownBuilding | InvalidImage
    | CampaignNotFound | TransitionRefused | NoSlot | SlotConflict

  type Table = map<Id, Campaign>

  /** JavaScript's truth of a nullable string. */
  predicate Truthy(s: Option<string>) {
    s.Some? && s.value != ""
  }

  // ----- the rules -----

  /** `ALLOWED_TRANSITIONS` */
  predicate Allowed(from: Status, to: Status) {
    match from
    case Draft => to.Active? || to.Ended?
    case Active => to.Paused? || to.Ended?
    case Paused => to.Active? || to.Ended?
    case Ended => false
  }

  predicate Interstitial(p: Placement) {
    p.HomeInterstitial? || p.PaymentEntryInterstitial?
  }

  /** `SLOT_ZONE_BY_PLACEMENT` */
  function ExpectedZone(p: Placement): Option<string> {
    match p
    case HomeTodayOffers => Some("N")
    case HomeFeaturedLarge => Some("S")
    case _ => None
  }

  /** `assertValidCampaignInput`: the first rule the input breaks. */
  function InputError(input: Input, env: Environment): Option<Error> {
    if input.source.OtherSource? then Some(UnknownSource)
    else if input.placement.OtherPlacement? then Some(UnknownPlacement)
    else if !(input.endsAt > input.startsAt) then Some(EndsBeforeStart)
    else if input.priority.Some? && input.priority.value < 0 then Some(NegativePriority)
    else if input.slotId !in env.slots then Some(UnknownSlot)
    else
      var slot := env.slots[input.slotId];
      if !slot.isActive then Some(InactiveSlot)
      else if Interstitial(input.placement) && !slot.fullScreen then Some(NotFullScreen)
      else if Interstitial(input.placement) && !input.source.Direct? then Some(NotDirect)
      else if slot.placement != input.placement then Some(IncompatibleSlot)
      else if ExpectedZone(input.placement).Some?
              && (slot.page != "HOME" || Some(slot.zone) != ExpectedZone(input.placement)) then Some(IncompatibleSlot)
      else if Truthy(input.buildingId) && input.buildingId.value !in env.buildings then Some(UnknownBuilding)
      else None
  }

  /** What each error says of the input it is thrown for. */
  predicate Breaks(input: Input, env: Environment, e: Error) {
    var known := input.slotId in env.slots;
    match e
    case UnknownSource => input.source !in {Direct, Marketplace, External}
    case UnknownPlacement => input.placement == OtherPlacement
    case EndsBeforeStart => input.endsAt <= input.startsAt
    case NegativePriority => input.priority.Some? && input.priority.value < 0
    case UnknownSlot => !known
    case InactiveSlot => known && !env.slots[input.slotId].isActive
    case NotFullScreen =>
      known && !env.slots[input.slotId].fullScreen && input.placement in {HomeInterstitial, PaymentEntryInterstitial}
    case NotDirect => input.placement in {HomeInterstitial, PaymentEntryInterstitial} && input.source != Direct
    case IncompatibleSlot =>
      && known
      && var slot := env.slots[input.slotId];
      || slot.placement != input.placement
      || (input.placement == HomeTodayOffers && !(slot.page == "HOME" && slot.zone == "N"))
      || (input.placement == HomeFeaturedLarge && !(slot.page == "HOME" && slot.zone == "S"))
    case UnknownBuilding =>
      input.buildingId.Some? && input.buildingId.value != "" && input.buildingId.value !in env.buildings
    case _ => false
  }

  /** The order in which the rules are asked. */
  const RULES := [UnknownSource, UnknownPlacement, EndsBeforeStart, NegativePriority, UnknownSlot, InactiveSlot,
                  NotFullScreen, NotDirect, IncompatibleSlot, UnknownBuilding]

  /** The first of the rules that is broken. */
  predicate FirstBroken(input: Input, env: Environment, e: Error, k: nat) {
    k < |RULES| && RULES[k] == e && Breaks(input, env, e) && forall j: nat | j < k :: !Breaks(input, env, RULES[j])
  }

  /** An input is refused exactly when it breaks a rule, and with the first one it breaks. */
  lemma FirstRuleDecides(input: Input, env: Environment)
    ensures InputError(input, env) == None <==> forall e :: !Breaks(input, env, e)
    ensures forall e :: InputError(input, env) == Some(e) <==> exists k: nat :: FirstBroken(input, env, e, k)
  {
    var error := InputError(input, env);
    if error.Some? {
      var k := Place(error.value);
      assert FirstBroken(input, env, error.value, k);
      forall e, j: nat | FirstBroken(input, env, e, j) ensures e == error.value {
        OneFirstBroken(input, env, e, j, error.value, k);
      }
    } else {
      forall e ensures !Breaks(input, env, e) {}
    }
  }

  lemma OneFirstBroken(input: Input, env: Environment, e: Error, j: nat, f: Error, k: nat)
    requires FirstBroken(input, env, e, j) && FirstBroken(input, env, f, k)
    ensures e == f
  {
    hide Breaks;
  }

  function Place(e: Error): nat {
    match e
    case UnknownSource => 0
    case UnknownPlacement => 1
    case EndsBeforeStart => 2
    case NegativePriority => 3
    case UnknownSlot => 4
    case InactiveSlot => 5
    case NotFullScreen => 6
    case NotDirect => 7
    case IncompatibleSlot => 8
    case UnknownBuilding => 9
    case _ => 10
  }

  /** Any campaign can be ended unless it is; a draft or paused one can be started, a running one paused. */
  lemma AllowedByTarget(from: Status, to: Status)
    ensures Allowed(from, to) <==>
              || (to == Ended && from != Ended)
              || (to == Active && (from == Draft || from == Paused))
              || (to == Paused && from == Active)
  {
  }

  /** Same slot, same building scope (a null scope only meets a null scope), overlapping schedule. */
  predicate Conflict(a: Campaign, b: Campaign) {
    a.slotId == b.slotId && a.buildingId == b.buildingId && a.startsAt < b.endsAt && b.startsAt < a.endsAt
  }

  /** Both schedules include this instant; a schedule ends before its last instant. */
  predicate BothRunAt(a: Campaign, b: Campaign, t: int) {
    a.startsAt <= t < a.endsAt && b.startsAt <= t < b.endsAt
  }

  /** Of two proper schedules: they share the slot and the scope and would run at one instant. */
  lemma ConflictIff(a: Campaign, b: Campaign)
    requires a.startsAt < a.endsAt && b.startsAt < b.endsAt
    ensures Conflict(a, b) <==>
      a.slotId == b.slotId && a.buildingId == b.buildingId && exists t :: BothRunAt(a, b, t)
  {
    var later := if a.startsAt < b.startsAt then b.startsAt else a.startsAt;
    if Conflict(a, b) { assert BothRunAt(a, b, later); }
  }

  /** `findObviousSlotConflict` finds something. */
  predicate HasConflict(table: Table, id: Id, c: Campaign) {
    exists other | other in table :: other != id && table[other].status.Active? && Conflict(table[other], c)
  }

  // ----- the three operations, each one atomic call -----

  /** `building: { connect }` for a truthy id, nothing or `disconnect` otherwise. */
  function Connected(buildingId: Option<string>): Option<string> {
    if Truthy(buildingId) then buildingId else None
  }

  function NewCampaign(input: Input, now: int): Campaign {
    Campaign(Draft, input.source, input.placement, Some(input.slotId), Connected(input.buildingId),
             if input.priority.Some? then input.priority.value else 0, input.startsAt, input.endsAt,
             input.targetCountry, input.targetCity, input.imageUrl, now)
  }

  function CreateOutcome(input: Input, env: Environment, now: int): Result<Campaign, Error> {
    var error := InputError(input, env);
    if error.Some? then Err(error.value)
    else if !env.imageOk then Err(InvalidImage)
    else Ok(NewCampaign(input, now))
  }

  function TransitionOutcome(table: Table, id: Id, target: Status): Result<Campaign, Error> {
    if id !in table then Err(CampaignNotFound)
    else if !Allowed(table[id].status, target) then Err(TransitionRefused)
    else if target.Active? && !Truthy(table[id].slotId) then Err(NoSlot)
    else if target.Active? && HasConflict(table, id, table[id]) then Err(SlotConflict)
    else Ok(table[id].(status := target))
  }

  function Or<T>(change: Option<T>, current: T): T {
    if change.Some? then change.value else current
  }

  function Merged(c: Campaign, u: Change): Input {
    Input(Or(u.source, c.source), Or(u.placement, c.placement), Some(Or(u.priority, c.priority)),
          Or(u.startsAt, c.startsAt), Or(u.endsAt, c.endsAt), Or(u.imageUrl, c.imageUrl),
          Or(u.targetCountry, c.targetCountry), Or(u.targetCity, c.targetCity), Or(u.buildingId, c.buildingId),
          Or(u.slotId, Or(c.slotId, "")))
  }

  /** What the update stores. */
  function Rewritten(c: Campaign, u: Change): Campaign {
    var m := Merged(c, u);
    c.(source := m.source, placement := m.placement, priority := m.priority.value, startsAt := m.startsAt,
       endsAt := m.endsAt, imageUrl := m.imageUrl, targetCountry := m.targetCountry, targetCity := m.targetCity,
       buildingId := Connected(m.buildingId), slotId := Some(m.slotId))
  }

  /** What the conflict query is asked about: the building scope here is the caller's, empty string included. */
  function Proposed(c: Campaign, u: Change): Campaign {
    var m := Merged(c, u);
    c.(slotId := Some(m.slotId), buildingId := m.buildingId, startsAt := m.startsAt, endsAt := m.endsAt)
  }

  function UpdateOutcome(table: Table, id: Id, u: Change, env: Environment): Result<Campaign, Error> {
    if id !in table then Err(CampaignNotFound)
    else
      var c := table[id];
      var error := InputError(Merged(c, u), env);
      if error.Some? then Err(error.value)
      else if u.imageUrl.Some? && u.imageUrl.value != c.imageUrl && !env.imageOk then Err(InvalidImage)
      else if c.status.Active? && HasConflict(table, id, Proposed(c, u)) then Err(SlotConflict)
      else Ok(Rewritten(c, u))
  }

  function Store(table: Table, id: Id, outcome: Result<Campaign, Error>): Table {
    if outcome.Ok? then table[id := outcome.value] else table
  }

  /** Field by field: what the caller gave, nothing for a building id of "", and priority 0 unless given. */
  predicate StoredAs(input: Input, c: Campaign) {
    && c.status == Draft
    && c.source == input.source && c.placement == input.placement
    && c.slotId == Some(input.slotId)
    && (input.buildingId == Some("") || input.buildingId == None ==> c.buildingId == None)
    && (input.buildingId != Some("") ==> c.buildingId == input.buildingId)
    && (input.priority.None? ==> c.priority == 0) && (input.priority.Some? ==> Some(c.priority) == input.priority)
    && c.startsAt == input.startsAt && c.endsAt == input.endsAt
    && c.targetCountry == input.targetCountry && c.targetCity == input.targetCity
    && c.imageUrl == input.imageUrl
  }

  /** The field holds the change if there is one, and is untouched otherwise. */
  predicate Follows<T(==)>(change: Option<T>, before: T, after: T) {
    (change.Some? ==> after == change.value) && (change.None? ==> after == before)
  }

  /** Field by field: what an update with these changes leaves of a row. */
  predicate UpdatedTo(c: Campaign, u: Change, after: Campaign) {
    && after.status == c.status && after.createdAt == c.createdAt
    && Follows(u.source, c.source, after.source)
    && Follows(u.placement, c.placement, after.placement)
    && Follows(u.priority, c.priority, after.priority)
    && Follows(u.startsAt, c.startsAt, after.startsAt)
    && Follows(u.endsAt, c.endsAt, after.endsAt)
    && Follows(u.imageUrl, c.imageUrl, after.imageUrl)
    && Follows(u.targetCountry, c.targetCountry, after.targetCountry)
    && Follows(u.targetCity, c.targetCity, after.targetCity)
    && (u.slotId.Some? ==> after.slotId == u.slotId)
    && (u.slotId.None? ==> after.slotId == if c.slotId.Some? then c.slotId else Some(""))
    && (u.buildingId == Some(Some("")) ==> after.buildingId == None)
    && (u.buildingId != Some(Some("")) && c.buildingId != Some("") ==>
          Follows(u.buildingId, c.buildingId, after.buildingId))
  }

  lemma RewrittenIs(c: Campaign, u: Change, env: Environment)
    ensures UpdatedTo(c, u, Rewritten(c, u))
    ensures InputError(Merged(c, u), env) == None ==> Rewritten(c, u).startsAt < Rewritten(c, u).endsAt
  {
  }

  class CampaignService {
    var campaigns: Table

    constructor ()
      ensures campaigns == map[]
    {
      campaigns := map[];
    }

    method CreateCampaign(id: Id, input: Input, env: Environment, now: int) returns (r: Result<Campaign, Error>)
      requires id !in campaigns
      modifies this
      ensures r == CreateOutcome(input, env, now) && campaigns == Store(old(campaigns), id, r)
      ensures r.Ok? ==> StoredAs(input, r.value) && r.value.createdAt == now && r.value.startsAt < r.value.endsAt
      ensures r.Ok? <==> env.imageOk && forall e :: !Breaks(input, env, e)
    {
      FirstRuleDecides(input, env);
      var error := InputError(input, env);
      if error.Some? { return Err(error.value); }
      if !env.imageOk { return Err(InvalidImage); }
      var campaign := NewCampaign(input, now);
      campaigns := campaigns[id := campaign];
      r := Ok(campaign);
    }

    /** Reads the row, checks, and updates by id alone. */
    method TransitionStatus(id: Id, target: Status) returns (r: Result<Campaign, Error>)
      modifies this
      ensures r == TransitionOutcome(old(campaigns), id, target) && campaigns == Store(old(campaigns), id, r)
      ensures r.Ok? && target.Active? ==> !HasConflict(campaigns, id, campaigns[id])
      ensures r == Err(CampaignNotFound) <==> id !in old(campaigns)
      ensures r == Err(TransitionRefused) <==> id in old(campaigns) && !Allowed(old(campaigns)[id].status, target)
      ensures r == Err(NoSlot) <==> id in old(campaigns) && Allowed(old(campaigns)[id].status, target)
                                    && target == Active && !Truthy(old(campaigns)[id].slotId)
      ensures r.Ok? || r.error in {CampaignNotFound, TransitionRefused, NoSlot, SlotConflict}
      ensures r.Ok? ==> id in old(campaigns) && r.value == old(campaigns)[id].(status := target)
    {
      if id !in campaigns { return Err(CampaignNotFound); }
      var campaign := campaigns[id];
      if !Allowed(campaign.status, target) { return Err(TransitionRefused); }
      if target.Active? {
        if !Truthy(campaign.slotId) { return Err(NoSlot); }
        if HasConflict(campaigns, id, campaign) { return Err(SlotConflict); }
      }
      var updated := campaign.(status := target);
      campaigns := campaigns[id := updated];
      r := Ok(updated);
    }

    method UpdateCampaign(id: Id, u: Change, env: Environment) returns (r: Result<Campaign, Error>)
      modifies this
      ensures r == UpdateOutcome(old(campaigns), id, u, env) && campaigns == Store(old(campaigns), id, r)
      ensures r.Ok? ==> id in old(campaigns) && UpdatedTo(old(campaigns)[id], u, r.value)
      ensures r.Ok? ==> r.value.startsAt < r.value.endsAt
      ensures r == Err(CampaignNotFound) <==> id !in old(campaigns)
      ensures r == Err(SlotConflict) ==> id in old(campaigns) && old(campaigns)[id].status == Active
    {
      if id !in campaigns { return Err(CampaignNotFound); }
      var current := campaigns[id];
      RewrittenIs(current, u, env);
      hide UpdatedTo, Rewritten, InputError, Conflict;
      var error := InputError(Merged(current, u), env);
      if error.Some? { return Err(error.value); }
      if u.imageUrl.Some? && u.imageUrl.value != current.imageUrl {
        if !env.imageOk { return Err(InvalidImage); }
      }
      if current.status.Active? {
        if HasConflict(campaigns, id, Proposed(current, u)) { return Err(SlotConflict); }
      }
      var updated := Rewritten(current, u);
      campaigns := campaigns[id := updated];
      r := Ok(updated);
    }
  }

  // ----- runs of atomic calls -----

  datatype Call =
    | Create(id: Id, input: Input, env: Environment, now: int)
    | Transition(id: Id, target: Status)
    | Update(id: Id, change: Change, env: Environment)

  /** The table after one call; a created id is new, so creating an existing one is no call at all. */
  function Step(table: Table, call: Call): Table {
    match call
    case Create(id, input, env, now) => if id in table then table else Store(table, id, CreateOutcome(input, env, now))
    case Transition(id, target) => Store(table, id, TransitionOutcome(table, id, target))
    case Update(id, change, env) => Store(table, id, UpdateOutcome(table, id, change, env))
  }

  function After(table: Table, calls: seq<Call>): Table
    decreases calls
  {
    if calls == [] then table else After(Step(table, calls[0]), calls[1..])
  }

  predicate ScheduledWell(table: Table) {
    forall id | id in table :: table[id].startsAt < table[id].endsAt
  }

  /** No row is scoped to the empty string, so a stored scope is null or a building. */
  predicate ScopedWell(table: Table) {
    forall id | id in table :: table[id].buildingId != Some("")
  }

  predicate ConflictFree(table: Table) {
    forall i, j | i in table && j in table && i != j && table[i].status.Active? && table[j].status.Active? ::
      !Conflict(table[i], table[j])
  }

  lemma {:induction false} RunKeepsSchedules(table: Table, calls: seq<Call>)
    requires ScheduledWell(table) && ScopedWell(table)
    ensures ScheduledWell(After(table, calls)) && ScopedWell(After(table, calls))
    decreases calls
  {
    if calls != [] { RunKeepsSchedules(Step(table, calls[0]), calls[1..]); }
  }

  /** Rows are never deleted, ENDED is never left, and DRAFT is never entered again. */
  lemma {:induction false} RunKeepsLifecycle(table: Table, calls: seq<Call>, id: Id)
    requires id in table
    ensures id in After(table, calls)
    ensures table[id].status.Ended? ==> After(table, calls)[id].status.Ended?
    ensures !table[id].status.Draft? ==> !After(table, calls)[id].status.Draft?
    ensures After(table, calls)[id].createdAt == table[id].createdAt
    decreases calls
  {
    if calls != [] { RunKeepsLifecycle(Step(table, calls[0]), calls[1..], id); }
  }

  /**
   * An update of a running campaign that passes the input checks and names the empty string as its
   * building while a running campaign without a building holds the slot then: the conflict query looks
   * for the scope "" and the row is stored with none.
   */
  predicate Slips(table: Table, call: Call) {
    && call.Update?
    && call.id in table
    && var c := table[call.id];
    && c.status.Active?
    && call.change.buildingId == Some(Some(""))
    && InputError(Merged(c, call.change), call.env) == None
    && (call.change.imageUrl.Some? && call.change.imageUrl.value != c.imageUrl ==> call.env.imageOk)
    && HasConflict(table, call.id, Rewritten(c, call.change))
  }

  lemma ConflictFreeStore(table: Table, id: Id, c: Campaign)
    requires ConflictFree(table)
    ensures ConflictFree(table[id := c]) <==> (c.status.Active? ==> !HasConflict(table, id, c))
  {
    var after := table[id := c];
    if c.status.Active? {
      if HasConflict(table, id, c) {
        var other :| other in table && other != id && table[other].status.Active? && Conflict(table[other], c);
        assert Conflict(after[other], after[id]);
      }
    }
    if c.status.Active? ==> !HasConflict(table, id, c) {
      forall i, j | i in after && j in after && i != j && after[i].status.Active? && after[j].status.Active?
        ensures !Conflict(after[i], after[j])
      {
        if i != id && j != id { assert !Conflict(table[i], table[j]); }
      }
    }
  }

  lemma StepKeepsConflictFree(table: Table, call: Call)
    requires ConflictFree(table) && ScopedWell(table)
    ensures ConflictFree(Step(table, call)) <==> !Slips(table, call)
  {
    match call
    case Create(id, input, env, now) =>
      ConflictFreeStore(table, id, NewCampaign(input, now));
    case Transition(id, target) =>
      if id in table {
        ConflictFreeStore(table, id, table[id].(status := target));
        assert HasConflict(table, id, table[id].(status := target)) <==> HasConflict(table, id, table[id]);
      }
    case Update(id, change, env) =>
      if id in table {
        var c, next := table[id], Rewritten(table[id], change);
        ConflictFreeStore(table, id, next);
        if change.buildingId == Some(Some("")) {
          assert !HasConflict(table, id, Proposed(c, change));
        } else {
          assert next.buildingId == Proposed(c, change).buildingId;
          assert HasConflict(table, id, next) <==> HasConflict(table, id, Proposed(c, change));
        }
      }
  }

  predicate ConflictFreeThroughout(table: Table, calls: seq<Call>)
    decreases calls
  {
    ConflictFree(table) && (calls != [] ==> ConflictFreeThroughout(Step(table, calls[0]), calls[1..]))
  }

  predicate NeverSlips(table: Table, calls: seq<Call>)
    decreases calls
  {
    calls != [] ==> !Slips(table, calls[0]) && NeverSlips(Step(table, calls[0]), calls[1..])
  }

  /** Over every run of atomic calls, the running campaigns stay free of conflicts exactly while no update slips. */
  lemma {:induction false} RunKeepsConflictFree(table: Table, calls: seq<Call>)
    requires ConflictFree(table) && ScheduledWell(table) && ScopedWell(table)
    ensures ConflictFreeThroughout(table, calls) <==> NeverSlips(table, calls)
    decreases calls
  {
    if calls != [] {
      StepKeepsConflictFree(table, calls[0]);
      RunKeepsSchedules(table, [calls[0]]);
      assert After(table, [calls[0]]) == Step(table, calls[0]) by {
        assert [calls[0]][1..] == [];
        assert After(Step(table, calls[0]), []) == Step(table, calls[0]);
      }
      if ConflictFree(Step(table, calls[0])) { RunKeepsConflictFree(Step(table, calls[0]), calls[1..]); }
    }
  }

  predicate NamesEmptyBuilding(call: Call) {
    call.Update? && call.change.buildingId == Some(Some(""))
  }

  /** In particular, callers that never send an empty building id never see a conflict. */
  lemma {:induction false} NoEmptyBuilding(table: Table, calls: seq<Call>)
    requires ConflictFree(table) && ScheduledWell(table) && ScopedWell(table)
    requires forall k | 0 <= k < |calls| :: !NamesEmptyBuilding(calls[k])
    ensures ConflictFreeThroughout(table, calls)
  {
    NoEmptyBuildingNeverSlips(table, calls);
    RunKeepsConflictFree(table, calls);
  }

  lemma {:induction false} NoEmptyBuildingNeverSlips(table: Table, calls: seq<Call>)
    requires forall k | 0 <= k < |calls| :: !NamesEmptyBuilding(calls[k])
    ensures NeverSlips(table, calls)
    decreases calls
  {
    if calls != [] {
      assert !NamesEmptyBuilding(calls[0]);
      forall k | 0 <= k < |calls[1..]| ensures !NamesEmptyBuilding(calls[1..][k]) {
        assert calls[1..][k] == calls[k + 1];
      }
      NoEmptyBuildingNeverSlips(Step(table, calls[0]), calls[1..]);
    }
  }

  const NO_CHANGE := Change(None, None, None, None, None, None, None, None, None, None)

  function Sample(buildingId: Option<string>): Campaign {
    Campaign(Active, Direct, HomeTodayOffers, Some("slot"), buildingId, 0, 0, 10, None, None, "image", 0)
  }

  const SAMPLE_ENV := Environment(map["slot" := Slot(true, false, HomeTodayOffers, "HOME", "N")], {"building"}, true)

  /** Two campaigns that did not conflict, and an update that makes them. */
  lemma AnUpdateSlips()
    ensures
      var table: Table := map[1 := Sample(None), 2 := Sample(Some("building"))];
      var call := Update(2, NO_CHANGE.(buildingId := Some(Some(""))), SAMPLE_ENV);
      ConflictFree(table) && ScheduledWell(table) && ScopedWell(table) && !ConflictFree(Step(table, call))
  {
    var table: Table := map[1 := Sample(None), 2 := Sample(Some("building"))];
    var change := NO_CHANGE.(buildingId := Some(Some("")));
    var call := Update(2, change, SAMPLE_ENV);
    assert InputError(Merged(table[2], change), SAMPLE_ENV) == None;
    assert !HasConflict(table, 2, Proposed(table[2], change));
    assert UpdateOutcome(table, 2, change, SAMPLE_ENV) == Ok(Rewritten(table[2], change));
    assert Conflict(Step(table, call)[1], Step(table, call)[2]);
  }

  // ----- concurrent transitions -----

  /** `updateStatus` runs after the checks, by id alone, on whatever the table holds by then. */
  function Commit(table: Table, id: Id, target: Status): Table {
    if id in table then table[id := table[id].(status := target)] else table
  }

  /** What the checks of `transitionStatus` would find if they were made again when the update runs. */
  predicate StillGranted(table: Table, id: Id, target: Status) {
    TransitionOutcome(table, id, target).Ok?
  }

  /**
   * A late update keeps the table free of conflicts exactly when no running campaign conflicts by
   * then; and it is a transition the service allows exactly when it would still be granted.
   */
  lemma LateCommit(table: Table, id: Id, target: Status)
    requires ConflictFree(table) && id in table
    ensures ConflictFree(Commit(table, id, target)) <==> (target.Active? ==> !HasConflict(table, id, table[id]))
    ensures Truthy(table[id].slotId) ==>
              (StillGranted(table, id, target)
               <==> ConflictFree(Commit(table, id, target)) && Allowed(table[id].status, target))
  {
    ConflictFreeStore(table, id, table[id].(status := target));
    assert HasConflict(table, id, table[id].(status := target)) <==> HasConflict(table, id, table[id]);
  }

  // ----- calls whose reads and write come at different moments -----

  /** A call between its first read and its write: the row it read, and whether the conflict query came back empty. */
  datatype Job = Job(call: Call, seen: Campaign, cleared: bool)

  /** The table, and the calls that are under way. */
  datatype Desk = Desk(table: Table, jobs: map<nat, Job>)

  /** One await of a call after the other; creating reads nothing of the table, so it is one step. */
  datatype Event =
    | Read(k: nat, call: Call)
    | Ask(k: nat)
    | Write(k: nat)
    | Insert(call: Call)

  /** The checks on the row that was read. */
  predicate Passes(c: Campaign, call: Call) {
    match call
    case Create(_, _, _, _) => false
    case Transition(_, target) => Allowed(c.status, target) && (target.Active? ==> Truthy(c.slotId))
    case Update(_, u, env) =>
      && InputError(Merged(c, u), env) == None
      && (u.imageUrl.Some? && u.imageUrl.value != c.imageUrl ==> env.imageOk)
  }

  /** Whether the call sends the conflict query, and what about. */
  predicate Asks(j: Job) {
    (j.call.Transition? && j.call.target.Active?) || (j.call.Update? && j.seen.status.Active?)
  }

  function Questioned(j: Job): Campaign {
    if j.call.Update? then Proposed(j.seen, j.call.change) else j.seen
  }

  /** What the write makes of the row it finds: the status alone, or every field but status and creation time. */
  function Overwritten(current: Campaign, j: Job): Campaign {
    if j.call.Transition? then current.(status := j.call.target)
    else if j.call.Update? then
      Rewritten(j.seen, j.call.change).(status := current.status, createdAt := current.createdAt)
    else current
  }

  predicate Ready(d: Desk, k: nat) {
    k in d.jobs && d.jobs[k].call.id in d.table && (Asks(d.jobs[k]) ==> d.jobs[k].cleared)
  }

  /** A call that throws is under way no longer; a write looks at nothing but the id. */
  function Happens(d: Desk, e: Event): Desk {
    match e
    case Read(k, call) =>
      if k !in d.jobs && call.id in d.table && Passes(d.table[call.id], call)
      then d.(jobs := d.jobs[k := Job(call, d.table[call.id], false)]) else d
    case Ask(k) =>
      if k !in d.jobs || !Asks(d.jobs[k]) || d.jobs[k].cleared then d
      else if HasConflict(d.table, d.jobs[k].call.id, Questioned(d.jobs[k])) then d.(jobs := d.jobs - {k})
      else d.(jobs := d.jobs[k := d.jobs[k].(cleared := true)])
    case Write(k) =>
      if Ready(d, k) then
        var j := d.jobs[k];
        Desk(d.table[j.call.id := Overwritten(d.table[j.call.id], j)], d.jobs - {k})
      else d
    case Insert(call) => if call.Create? then d.(table := Step(d.table, call)) else d
  }

  /** The desk after the first n events. */
  function At(d: Desk, run: seq<Event>, n: nat): Desk
    requires n <= |run|
  {
    if n == 0 then d else Happens(At(d, run, n - 1), run[n - 1])
  }

  /** Without interference the three steps are the atomic call. */
  lemma UninterruptedIsStep(d: Desk, k: nat, call: Call)
    requires k !in d.jobs && !call.Create?
    ensures Happens(Happens(Happens(d, Read(k, call)), Ask(k)), Write(k)) == d.(table := Step(d.table, call))
  {
    var a := Happens(d, Read(k, call));
    var b := Happens(a, Ask(k));
    if k in a.jobs {
      assert a.jobs - {k} == d.jobs;
      if k in b.jobs { assert b.jobs - {k} == d.jobs; }
    }
  }

  // ----- what no interleaving breaks -----

  predicate DeskOk(d: Desk) {
    && ScheduledWell(d.table) && ScopedWell(d.table)
    && forall k | k in d.jobs :: Passes(d.jobs[k].seen, d.jobs[k].call)
  }

  predicate RowsKept(table: Table, after: Table) {
    forall id | id in table ::
      && id in after && after[id].createdAt == table[id].createdAt
      && (!table[id].status.Draft? ==> !after[id].status.Draft?)
  }

  /** What a checked call leaves behind, whatever row it finds. */
  lemma OverwrittenOk(current: Campaign, j: Job)
    requires Passes(j.seen, j.call) && current.startsAt < current.endsAt && current.buildingId != Some("")
    ensures var row := Overwritten(current, j);
      && row.startsAt < row.endsAt && row.buildingId != Some("") && row.createdAt == current.createdAt
      && (!current.status.Draft? ==> !row.status.Draft?)
  {
  }

  lemma EventKeepsRows(d: Desk, e: Event)
    requires DeskOk(d)
    ensures DeskOk(Happens(d, e)) && RowsKept(d.table, Happens(d, e).table)
  {
    if e.Write? && Ready(d, e.k) { OverwrittenOk(d.table[d.jobs[e.k].call.id], d.jobs[e.k]); }
    hide Overwritten, Passes, HasConflict;
  }

  /** Schedules and scopes stay proper, rows stay, and DRAFT is never entered again. */
  lemma {:induction false} LateRunsKeepRows(d: Desk, run: seq<Event>, m: nat, n: nat)
    requires DeskOk(d) && m <= n <= |run|
    ensures DeskOk(At(d, run, n)) && RowsKept(At(d, run, m).table, At(d, run, n).table)
    decreases n
  {
    if n > 0 {
      LateRunsKeepRows(d, run, if m < n then m else n - 1, n - 1);
      EventKeepsRows(At(d, run, n - 1), run[n - 1]);
    }
  }

  // ----- conflicts -----

  /** The write leaves a running campaign where another one holds slot, scope and schedule by then. */
  predicate Collides(d: Desk, e: Event) {
    && e.Write? && Ready(d, e.k)
    && var id := d.jobs[e.k].call.id;
    && var row := Overwritten(d.table[id], d.jobs[e.k]);
    && row.status.Active? && HasConflict(d.table, id, row)
  }

  lemma EventKeepsConflictFree(d: Desk, e: Event)
    requires ConflictFree(d.table)
    ensures ConflictFree(Happens(d, e).table) <==> !Collides(d, e)
  {
    match e
    case Write(k) =>
      if Ready(d, k) {
        var id := d.jobs[k].call.id;
        ConflictFreeStore(d.table, id, Overwritten(d.table[id], d.jobs[k]));
      }
    case Insert(call) =>
      if call.Create? { ConflictFreeStore(d.table, call.id, NewCampaign(call.input, call.now)); }
    case _ =>
  }

  ghost predicate FreeThroughout(d: Desk, run: seq<Event>) {
    forall n: nat | n <= |run| :: ConflictFree(At(d, run, n).table)
  }

  ghost predicate NoneCollides(d: Desk, run: seq<Event>) {
    forall n: nat | n < |run| :: !Collides(At(d, run, n), run[n])
  }

  lemma {:induction false} FreeWhileNoneCollides(d: Desk, run: seq<Event>, n: nat)
    requires ConflictFree(d.table) && n <= |run| && NoneCollides(d, run)
    ensures ConflictFree(At(d, run, n).table)
  {
    hide Happens, Collides, ConflictFree;
    if n > 0 {
      FreeWhileNoneCollides(d, run, n - 1);
      EventKeepsConflictFree(At(d, run, n - 1), run[n - 1]);
    }
  }

  lemma FreeMeansNoCollision(d: Desk, run: seq<Event>, n: nat)
    requires FreeThroughout(d, run) && n < |run|
    ensures !Collides(At(d, run, n), run[n])
  {
    var now := At(d, run, n);
    assert At(d, run, n + 1) == Happens(now, run[n]);
    assert ConflictFree(At(d, run, n + 1).table) && ConflictFree(now.table);
    EventKeepsConflictFree(now, run[n]);
  }

  /** Over every interleaving the running campaigns stay free of conflicts exactly while no write collides. */
  lemma LateRunsKeepConflictFree(d: Desk, run: seq<Event>)
    requires ConflictFree(d.table)
    ensures FreeThroughout(d, run) <==> NoneCollides(d, run)
  {
    hide At, Happens, Collides, ConflictFree;
    if NoneCollides(d, run) {
      forall n: nat | n <= |run| ensures ConflictFree(At(d, run, n).table) { FreeWhileNoneCollides(d, run, n); }
    }
    if FreeThroughout(d, run) {
      forall n: nat | n < |run| ensures !Collides(At(d, run, n), run[n]) { FreeMeansNoCollision(d, run, n); }
    }
  }

  // ----- the history of a pending call -----

  /** Event i read the row for call k, which has been under way from then to n. */
  predicate Pending(d: Desk, run: seq<Event>, k: nat, i: nat, n: nat)
    requires i < n <= |run|
  {
    && run[i].Read? && run[i].k == k && k !in At(d, run, i).jobs
    && run[i].call.id in At(d, run, i).table && Passes(At(d, run, i).table[run[i].call.id], run[i].call)
    && forall m: nat | i < m <= n ::
         && k in At(d, run, m).jobs
         && At(d, run, m).jobs[k].call == run[i].call
         && At(d, run, m).jobs[k].seen == At(d, run, i).table[run[i].call.id]
  }

  /** A job was there before, or this event read its row. */
  lemma JobOrigin(d: Desk, e: Event, k: nat)
    requires k in Happens(d, e).jobs
    ensures var after := Happens(d, e).jobs[k];
      if k in d.jobs then after.call == d.jobs[k].call && after.seen == d.jobs[k].seen
      else
        && e.Read? && e.k == k && e.call.id in d.table && Passes(d.table[e.call.id], e.call)
        && after == Job(e.call, d.table[e.call.id], false)
  {
  }

  lemma {:induction false} PendingSince(d: Desk, run: seq<Event>, k: nat, n: nat) returns (i: nat)
    requires d.jobs == map[] && n <= |run| && k in At(d, run, n).jobs
    ensures i < n && Pending(d, run, k, i, n)
  {
    JobOrigin(At(d, run, n - 1), run[n - 1], k);
    hide Happens, Passes;
    if k in At(d, run, n - 1).jobs {
      i := PendingSince(d, run, k, n - 1);
    } else {
      i := n - 1;
    }
  }

  // ----- leaving ENDED -----

  predicate EndedAt(d: Desk, run: seq<Event>, n: nat, id: Id)
    requires n <= |run|
  {
    id in At(d, run, n).table && At(d, run, n).table[id].status.Ended?
  }

  predicate LiveAt(d: Desk, run: seq<Event>, n: nat, id: Id)
    requires n <= |run|
  {
    id in At(d, run, n).table && !At(d, run, n).table[id].status.Ended?
  }

  /** Some campaign is ended at one moment and not at a later one. */
  ghost predicate EndedIsLeft(d: Desk, run: seq<Event>) {
    exists m: nat, n: nat, id :: m <= n <= |run| && EndedAt(d, run, m, id) && LiveAt(d, run, n, id)
  }

  /**
   * Event i read the campaign, not ended, for a transition to a status other than ENDED; event j ended the
   * campaign; and event n is the write of that transition, on the campaign that is ended by then.
   */
  predicate Overtaken(d: Desk, run: seq<Event>, id: Id, i: nat, j: nat, n: nat)
    requires i < j < n < |run|
  {
    && run[n].Write? && Ready(At(d, run, n), run[n].k) && Pending(d, run, run[n].k, i, n)
    && run[i].call.Transition? && run[i].call.id == id && !run[i].call.target.Ended?
    && LiveAt(d, run, i, id)
    && LiveAt(d, run, j, id) && EndedAt(d, run, j + 1, id)
    && EndedAt(d, run, n, id)
  }

  /** The write of a transition of this campaign. */
  predicate Transits(d: Desk, e: Event, id: Id) {
    e.Write? && Ready(d, e.k) && d.jobs[e.k].call.Transition? && d.jobs[e.k].call.id == id
  }

  /** Only such a write changes a status, and to its target. */
  lemma StatusOrigin(d: Desk, e: Event, id: Id)
    requires id in d.table
    ensures id in Happens(d, e).table
    ensures Happens(d, e).table[id].status ==
      if Transits(d, e, id) then d.jobs[e.k].call.target else d.table[id].status
  {
  }

  lemma {:induction false} LeavesBetween(d: Desk, run: seq<Event>, id: Id, m: nat, n: nat) returns (p: nat)
    requires m <= n <= |run| && EndedAt(d, run, m, id) && LiveAt(d, run, n, id)
    ensures m <= p < n && EndedAt(d, run, p, id) && LiveAt(d, run, p + 1, id)
    decreases n - m
  {
    StatusOrigin(At(d, run, m), run[m], id);
    if EndedAt(d, run, m + 1, id) { p := LeavesBetween(d, run, id, m + 1, n); } else { p := m; }
  }

  lemma {:induction false} EndsBetween(d: Desk, run: seq<Event>, id: Id, m: nat, n: nat) returns (j: nat)
    requires m <= n <= |run| && LiveAt(d, run, m, id) && EndedAt(d, run, n, id)
    ensures m <= j < n && LiveAt(d, run, j, id) && EndedAt(d, run, j + 1, id)
    decreases n - m
  {
    StatusOrigin(At(d, run, m), run[m], id);
    if LiveAt(d, run, m + 1, id) { j := EndsBetween(d, run, id, m + 1, n); } else { j := m; }
  }

  /** A write that takes a campaign out of ENDED was checked before the ending. */
  lemma RevivalIsOvertaken(d: Desk, run: seq<Event>, id: Id, n: nat) returns (i: nat, j: nat)
    requires d.jobs == map[] && n < |run| && EndedAt(d, run, n, id) && LiveAt(d, run, n + 1, id)
    ensures i < j < n && Overtaken(d, run, id, i, j, n)
  {
    StatusOrigin(At(d, run, n), run[n], id);
    i := PendingSince(d, run, run[n].k, n);
    assert run[i].call == At(d, run, n).jobs[run[n].k].call;
    j := EndsBetween(d, run, id, i, n);
    assert At(d, run, i + 1).table == At(d, run, i).table;
  }

  /**
   * Over every interleaving of calls that begin on an idle desk, ENDED is left exactly when a transition
   * whose check read another status is written after the campaign has been ended.
   */
  lemma LateRunsKeepEnded(d: Desk, run: seq<Event>)
    requires d.jobs == map[]
    ensures EndedIsLeft(d, run) <==>
      exists id, i: nat, j: nat, n: nat :: i < j < n < |run| && Overtaken(d, run, id, i, j, n)
  {
    if EndedIsLeft(d, run) {
      var m: nat, n: nat, id :| m <= n <= |run| && EndedAt(d, run, m, id) && LiveAt(d, run, n, id);
      var p := LeavesBetween(d, run, id, m, n);
      var i, j := RevivalIsOvertaken(d, run, id, p);
    }
    forall id, i: nat, j: nat, n: nat | i < j < n < |run| && Overtaken(d, run, id, i, j, n)
      ensures EndedIsLeft(d, run)
    {
      assert At(d, run, n).jobs[run[n].k].call == run[i].call;
      StatusOrigin(At(d, run, n), run[n], id);
      assert LiveAt(d, run, n + 1, id);
    }
  }

  /** Between the read of a transition and its write, no other transition of the campaign is written. */
  ghost predicate OneTransitionAtATime(d: Desk, run: seq<Event>) {
    forall k: nat, i: nat, j: nat, n: nat {:trigger Pending(d, run, k, i, n), At(d, run, j)} ::
      i < j < n < |run| && run[n] == Write(k) && Pending(d, run, k, i, n) && run[i].call.Transition?
      ==> !Transits(At(d, run, j), run[j], run[i].call.id)
  }

  lemma {:induction false} StatusStays(d: Desk, run: seq<Event>, id: Id, i: nat, n: nat)
    requires i <= n <= |run| && id in At(d, run, i).table
    requires forall j: nat | i <= j < n :: !Transits(At(d, run, j), run[j], id)
    ensures id in At(d, run, n).table && At(d, run, n).table[id].status == At(d, run, i).table[id].status
    decreases n
  {
    if i < n {
      StatusStays(d, run, id, i, n - 1);
      StatusOrigin(At(d, run, n - 1), run[n - 1], id);
    }
  }

  /** Every campaign of the one table is in the other, with the same status or after an allowed transition. */
  predicate FollowsRules(table: Table, after: Table) {
    forall id | id in table ::
      id in after && (after[id].status == table[id].status || Allowed(table[id].status, after[id].status))
  }

  lemma TransitionIsAllowed(d: Desk, run: seq<Event>, n: nat, id: Id)
    requires d.jobs == map[] && OneTransitionAtATime(d, run) && n < |run| && id in At(d, run, n).table
    ensures id in At(d, run, n + 1).table
    ensures var from, to := At(d, run, n).table[id].status, At(d, run, n + 1).table[id].status;
      from == to || Allowed(from, to)
  {
    StatusOrigin(At(d, run, n), run[n], id);
    if Transits(At(d, run, n), run[n], id) {
      var k := run[n].k;
      var i := PendingSince(d, run, k, n);
      assert At(d, run, n).jobs[k].call == run[i].call;
      forall j: nat | i <= j < n ensures !Transits(At(d, run, j), run[j], id) {
        if j > i { assert Pending(d, run, k, i, n); }
      }
      StatusStays(d, run, id, i, n);
    }
  }

  lemma StepFollowsRules(d: Desk, run: seq<Event>, n: nat)
    requires d.jobs == map[] && OneTransitionAtATime(d, run) && n < |run|
    ensures FollowsRules(At(d, run, n).table, Happens(At(d, run, n), run[n]).table)
  {
    assert At(d, run, n + 1) == Happens(At(d, run, n), run[n]);
    forall id | id in At(d, run, n).table { TransitionIsAllowed(d, run, n, id); }
    hide At, Happens;
  }

  /** Callers that keep to that see allowed transitions only, and so no campaign ever leave ENDED. */
  lemma OneAtATimeIsAllowed(d: Desk, run: seq<Event>)
    requires d.jobs == map[] && OneTransitionAtATime(d, run)
    ensures forall n: nat | n < |run| :: FollowsRules(At(d, run, n).table, Happens(At(d, run, n), run[n]).table)
    ensures !EndedIsLeft(d, run)
  {
    hide At, Happens, FollowsRules;
    forall n: nat | n < |run|
      ensures FollowsRules(At(d, run, n).table, Happens(At(d, run, n), run[n]).table)
    {
      StepFollowsRules(d, run, n);
    }
    if EndedIsLeft(d, run) {
      var m: nat, n: nat, id :| m <= n <= |run| && EndedAt(d, run, m, id) && LiveAt(d, run, n, id);
      var p := LeavesBetween(d, run, id, m, n);
      TransitionIsAllowed(d, run, p, id);
    }
  }

  // ----- when no conflict can arise -----

  /** The write changes this campaign. */
  predicate Touches(d: Desk, e: Event, id: Id) {
    e.Write? && Ready(d, e.k) && d.jobs[e.k].call.id == id
  }

  /** The write starts another campaign in the slot, or moves a running one there. */
  predicate Enters(d: Desk, e: Event, slotId: Option<string>) {
    && e.Write? && Ready(d, e.k)
    && var current := d.table[d.jobs[e.k].call.id];
    && var row := Overwritten(current, d.jobs[e.k]);
    && row.status.Active? && row.slotId == slotId
    && !(current.status.Active? && current.slotId == row.slotId && current.buildingId == row.buildingId
         && current.startsAt == row.startsAt && current.endsAt == row.endsAt)
  }

  /** The slot the conflict query of a call is about. */
  function SlotOf(c: Campaign, call: Call): Option<string> {
    Questioned(Job(call, c, false)).slotId
  }

  /**
   * Between the read of a call and its write, no other write touches the campaign, and none starts a
   * campaign in the slot the call is about or moves one there.
   */
  ghost predicate Calm(d: Desk, run: seq<Event>) {
    forall k: nat, i: nat, j: nat, n: nat {:trigger Pending(d, run, k, i, n), At(d, run, j)} ::
      i < j < n < |run| && run[n] == Write(k) && Pending(d, run, k, i, n)
      ==> !Touches(At(d, run, j), run[j], run[i].call.id)
          && !Enters(At(d, run, j), run[j], SlotOf(At(d, run, i).table[run[i].call.id], run[i].call))
  }

  lemma NoNewConflict(d: Desk, e: Event, id: Id, c: Campaign)
    requires !HasConflict(d.table, id, c) && !Touches(d, e, id) && !Enters(d, e, c.slotId)
    ensures !HasConflict(Happens(d, e).table, id, c)
  {
    var after := Happens(d, e).table;
    forall other | other in after && other != id && after[other].status.Active? ensures !Conflict(after[other], c) {
      assert other in d.table && d.table[other].status.Active? ==> !Conflict(d.table[other], c);
    }
  }

  /** The call still sees what it read, and what its query found still holds. */
  predicate StillClear(d: Desk, k: nat) {
    && k in d.jobs
    && var j := d.jobs[k];
    && j.call.id in d.table && d.table[j.call.id] == j.seen
    && (j.cleared ==> !HasConflict(d.table, j.call.id, Questioned(j)))
  }

  lemma StaysClearOnce(d: Desk, e: Event, k: nat)
    requires StillClear(d, k) && k in Happens(d, e).jobs
    requires !Touches(d, e, d.jobs[k].call.id) && !Enters(d, e, Questioned(d.jobs[k]).slotId)
    ensures StillClear(Happens(d, e), k)
  {
    var j := d.jobs[k];
    if j.cleared { NoNewConflict(d, e, j.call.id, Questioned(j)); }
    hide Overwritten, Passes, HasConflict, Questioned;
  }

  lemma {:induction false} StaysClear(d: Desk, run: seq<Event>, k: nat, i: nat, n: nat, m: nat)
    requires i < m <= n < |run| && run[n] == Write(k) && Pending(d, run, k, i, n) && Calm(d, run)
    ensures StillClear(At(d, run, m), k)
    decreases m
  {
    if m > i + 1 {
      StaysClear(d, run, k, i, n, m - 1);
      var j := At(d, run, m - 1).jobs[k];
      assert j.call == run[i].call && j.seen == At(d, run, i).table[run[i].call.id];
      assert k in At(d, run, m).jobs;
      hide Happens, HasConflict, Passes, Enters, Touches, StillClear;
      StaysClearOnce(At(d, run, m - 1), run[m - 1], k);
    }
  }

  lemma CalmWriteIsFree(d: Desk, run: seq<Event>, n: nat)
    requires d.jobs == map[] && DeskOk(d) && Calm(d, run) && n < |run|
    requires forall i: nat | i < |run| && run[i].Read? :: !NamesEmptyBuilding(run[i].call)
    ensures !Collides(At(d, run, n), run[n])
  {
    var now := At(d, run, n);
    if run[n].Write? && Ready(now, run[n].k) {
      var k := run[n].k;
      var i := PendingSince(d, run, k, n);
      StaysClear(d, run, k, i, n, n);
      LateRunsKeepRows(d, run, n, n);
      assert now.jobs[k].call == run[i].call;
      var row := Overwritten(now.jobs[k].seen, now.jobs[k]);
      if row.status.Active? {
        assert row.buildingId == Questioned(now.jobs[k]).buildingId;
        assert HasConflict(now.table, run[i].call.id, row)
          <==> HasConflict(now.table, run[i].call.id, Questioned(now.jobs[k]));
      }
    }
  }

  /**
   * Callers that keep to that, and never send an empty building id, never see two running campaigns in
   * conflict.
   */
  lemma CalmRunsStayFree(d: Desk, run: seq<Event>)
    requires d.jobs == map[] && DeskOk(d) && ConflictFree(d.table) && Calm(d, run)
    requires forall i: nat | i < |run| && run[i].Read? :: !NamesEmptyBuilding(run[i].call)
    ensures FreeThroughout(d, run)
  {
    hide At, Collides, ConflictFree, DeskOk, Calm;
    forall n: nat | n < |run| ensures !Collides(At(d, run, n), run[n]) { CalmWriteIsFree(d, run, n); }
    LateRunsKeepConflictFree(d, run);
  }

  // ----- what interference can do -----

  lemma TwoMore(d: Desk, run: seq<Event>, n: nat)
    requires n + 2 <= |run|
    ensures At(d, run, n + 2) == Happens(Happens(At(d, run, n), run[n]), run[n + 1])
  {
    assert At(d, run, n + 1) == Happens(At(d, run, n), run[n]);
  }

  /** A transition that would be granted is under way after its read and, if it starts a campaign, its query. */
  lemma Granted(d: Desk, k: nat, id: Id, target: Status)
    requires k !in d.jobs && StillGranted(d.table, id, target)
    ensures Happens(Happens(d, Read(k, Transition(id, target))), Ask(k)) ==
      d.(jobs := d.jobs[k := Job(Transition(id, target), d.table[id], target.Active?)])
  {
  }

  lemma Saved(d: Desk, k: nat)
    requires Ready(d, k) && d.jobs[k].call.Transition?
    ensures Happens(d, Write(k)) == Desk(Commit(d.table, d.jobs[k].call.id, d.jobs[k].call.target), d.jobs - {k})
  {
  }

  const START_BOTH :=
    [Read(1, Transition(1, Active)), Ask(1), Read(2, Transition(2, Active)), Ask(2), Write(1), Write(2)]

  /** Two transitions whose queries both come back empty before either update: two conflicting campaigns run. */
  lemma ConcurrentActivations()
    ensures
      var table: Table := map[1 := Sample(None).(status := Draft), 2 := Sample(None).(status := Paused)];
      ConflictFree(table) && !ConflictFree(At(Desk(table, map[]), START_BOTH, 6).table)
  {
    var draft, paused := Sample(None).(status := Draft), Sample(None).(status := Paused);
    var table: Table := map[1 := draft, 2 := paused];
    var d := Desk(table, map[]);
    TwinsConflict();
    hide HasConflict, ConflictFree, StillGranted;
    TwoMore(d, START_BOTH, 0);
    TwoMore(d, START_BOTH, 2);
    TwoMore(d, START_BOTH, 4);
    Granted(d, 1, 1, Active);
    var a := At(d, START_BOTH, 2);
    Granted(a, 2, 2, Active);
    var b := At(d, START_BOTH, 4);
    Saved(b, 1);
    Saved(Happens(b, Write(1)), 2);
    assert At(d, START_BOTH, 6).table == map[1 := Sample(None), 2 := Sample(None)];
  }

  lemma TwinsConflict()
    ensures !ConflictFree(map[1 := Sample(None), 2 := Sample(None)])
    ensures
      var table: Table := map[1 := Sample(None).(status := Draft), 2 := Sample(None).(status := Paused)];
      ConflictFree(table) && StillGranted(table, 1, Active) && StillGranted(table, 2, Active)
  {
    var table: Table := map[1 := Sample(None), 2 := Sample(None)];
    assert Conflict(table[1], table[2]);
  }

  const END_AND_RESUME :=
    [Read(1, Transition(1, Active)), Ask(1), Read(2, Transition(1, Ended)), Ask(2), Write(2), Write(1)]

  /** Ending and resuming concurrently: the resumed campaign leaves ENDED. */
  lemma ConcurrentEndAndResume()
    ensures var d := Desk(map[1 := Sample(None).(status := Paused)], map[]);
      EndedAt(d, END_AND_RESUME, 5, 1) && LiveAt(d, END_AND_RESUME, 6, 1)
  {
    var d := Desk(map[1 := Sample(None).(status := Paused)], map[]);
    TwoMore(d, END_AND_RESUME, 0);
    TwoMore(d, END_AND_RESUME, 2);
    TwoMore(d, END_AND_RESUME, 4);
    Granted(d, 1, 1, Active);
    var a := At(d, END_AND_RESUME, 2);
    Granted(a, 2, 1, Ended);
    var b := At(d, END_AND_RESUME, 4);
    Saved(b, 2);
    Saved(Happens(b, Write(2)), 1);
    assert At(d, END_AND_RESUME, 5) == Happens(b, Write(2));
  }

  const LATER_DRAFT := Sample(None).(status := Draft, startsAt := 20, endsAt := 30)
  const MOVE := Update(1, NO_CHANGE.(startsAt := Some(0), endsAt := Some(10)), SAMPLE_ENV)
  const ONE_RUNNING: Table := map[1 := LATER_DRAFT, 2 := Sample(None)]
  const START_AND_MOVE := [Read(1, Transition(1, Active)), Ask(1), Read(2, MOVE), Write(1), Write(2)]

  /** A draft is moved into an occupied schedule and, concurrently, started: both checks passed first. */
  lemma ConcurrentUpdateAndActivation()
    ensures ConflictFree(ONE_RUNNING) && !ConflictFree(At(Desk(ONE_RUNNING, map[]), START_AND_MOVE, 5).table)
  {
    BothChecksPass();
    var c := At(Desk(ONE_RUNNING, map[]), START_AND_MOVE, 3);
    BothWrites(c);
    assert At(Desk(ONE_RUNNING, map[]), START_AND_MOVE, 4) == Happens(c, Write(1));
  }

  lemma BothWrites(c: Desk)
    requires c ==
      Desk(ONE_RUNNING, map[1 := Job(Transition(1, Active), LATER_DRAFT, true), 2 := Job(MOVE, LATER_DRAFT, false)])
    ensures !ConflictFree(Happens(Happens(c, Write(1)), Write(2)).table)
  {
    hide InputError, HasConflict, Passes, Proposed;
    var a := Happens(c, Write(1));
    assert a.table == ONE_RUNNING[1 := LATER_DRAFT.(status := Active)];
    assert a.jobs[2] == Job(MOVE, LATER_DRAFT, false);
    var b := Happens(a, Write(2));
    assert Conflict(b.table[1], b.table[2]);
  }

  lemma BothChecksPass()
    ensures At(Desk(ONE_RUNNING, map[]), START_AND_MOVE, 3) ==
      Desk(ONE_RUNNING, map[1 := Job(Transition(1, Active), LATER_DRAFT, true), 2 := Job(MOVE, LATER_DRAFT, false)])
  {
    var d, run := Desk(ONE_RUNNING, map[]), START_AND_MOVE;
    assert InputError(Merged(LATER_DRAFT, MOVE.change), SAMPLE_ENV) == None;
    assert !HasConflict(ONE_RUNNING, 1, LATER_DRAFT);
    hide InputError, HasConflict;
    assert At(d, run, 1) == Desk(ONE_RUNNING, map[1 := Job(Transition(1, Active), LATER_DRAFT, false)]);
    assert At(d, run, 2) == Desk(ONE_RUNNING, map[1 := Job(Transition(1, Active), LATER_DRAFT, true)]);
  }
}
