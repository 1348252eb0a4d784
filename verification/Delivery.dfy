/**
 * Which campaign is shown: the eligibility rule, the repository's queries, and the choice of the
 * interstitial winner (src/modules/advertising).  Campaign ids are generated identifiers over one
 * alphabet of lower-case letters and digits, which `localeCompare` orders strictly; here they are numbers
 * in that order.
 */
module Delivery {
  import opened Wrappers
  import opened Sorting
  import opened Campaigns

  // ----- eligibility -----

  datatype Context = Context(placement: Placement, now: int, country: string, city: string, buildingId: string)

  predicate Meets(target: Option<string>, actual: string) {
    !Truthy(target) || target.value == actual
  }

  /** `isEligibleNow` */
  predicate IsEligibleNow(c: Campaign, ctx: Context) {
    && c.status.Active?
    && c.placement == ctx.placement
    && c.startsAt <= ctx.now <= c.endsAt
    && Meets(c.targetCountry, ctx.country)
    && Meets(c.targetCity, ctx.city)
    && Meets(c.buildingId, ctx.buildingId)
  }

  /** `OR: [{ target: null }, { target: actual }]` */
  predicate NullOr(target: Option<string>, actual: string) {
    target == None || target == Some(actual)
  }

  /** The WHERE of `findEligibleForPlacement`. */
  predicate EligibleForPlacement(c: Campaign, ctx: Context) {
    && c.placement == ctx.placement
    && c.slotId.Some?
    && c.status.Active?
    && c.startsAt <= ctx.now <= c.endsAt
    && NullOr(c.targetCountry, ctx.country)
    && NullOr(c.targetCity, ctx.city)
    && NullOr(c.buildingId, ctx.buildingId)
  }

  /** A stored target that is the empty string restricts the query but not the rule. */
  predicate EmptyTarget(target: Option<string>, actual: string) {
    target == Some("") && actual != ""
  }

  /** The re-check never rejects what the query selects; the query misses only rows with an empty target or no slot. */
  lemma QueryAgreesWithEligibility(c: Campaign, ctx: Context)
    ensures EligibleForPlacement(c, ctx) ==> IsEligibleNow(c, ctx)
    ensures EligibleForPlacement(c, ctx) <==>
              && IsEligibleNow(c, ctx)
              && c.slotId.Some?
              && !EmptyTarget(c.targetCountry, ctx.country)
              && !EmptyTarget(c.targetCity, ctx.city)
              && !EmptyTarget(c.buildingId, ctx.buildingId)
  {
  }

  /** A running campaign whose city is the empty string: eligible everywhere by the rule, delivered nowhere. */
  lemma EligibleButNotSelected(ctx: Context)
    requires ctx.city != ""
    ensures exists c: Campaign :: IsEligibleNow(c, ctx) && c.slotId.Some? && !EligibleForPlacement(c, ctx)
  {
    var c := Campaign(Active, Direct, ctx.placement, Some("slot"), None, 0, ctx.now, ctx.now + 1,
                      None, Some(""), "image", 0);
    assert EmptyTarget(c.targetCity, ctx.city);
    assert IsEligibleNow(c, ctx) && !EligibleForPlacement(c, ctx);
  }

  // ----- the interstitial winner -----

  datatype Candidate = Candidate(id: Id, campaign: Campaign)

  /** Where the request comes from: a building with its geography, or nowhere. */
  datatype Origin = Nowhere | Building(id: string, country: string, city: string)

  /** The WHERE of `findInterstitialCandidates`. */
  predicate InterstitialMatch(c: Campaign, placement: Placement, now: int, origin: Origin) {
    && c.source.Direct?
    && c.placement == placement
    && c.status.Active?
    && c.startsAt <= now <= c.endsAt
    && match origin
       case Nowhere => c.targetCountry == None && c.targetCity == None && c.buildingId == None
       case Building(id, country, city) =>
         NullOr(c.targetCountry, country) && NullOr(c.targetCity, city) && NullOr(c.buildingId, id)
  }

  /**
   * The interstitial query selects what the rule accepts of direct campaigns, but for an empty target that
   * the place does not have; and for a request from nowhere only what is not targeted at all.
   */
  lemma InterstitialAgrees(c: Campaign, placement: Placement, now: int, id: string, country: string, city: string)
    ensures InterstitialMatch(c, placement, now, Building(id, country, city)) <==>
              && c.source == Direct
              && IsEligibleNow(c, Context(placement, now, country, city, id))
              && !EmptyTarget(c.targetCountry, country)
              && !EmptyTarget(c.targetCity, city)
              && !EmptyTarget(c.buildingId, id)
    ensures InterstitialMatch(c, placement, now, Nowhere) <==>
              && InterstitialMatch(c, placement, now, Building(id, country, city))
              && c.targetCountry.None? && c.targetCity.None? && c.buildingId.None?
  {
  }

  /** `findMany`: the matching rows, once each.  Its ORDER BY is not used, as no result depends on it. */
  predicate IsAnswer(table: Table, placement: Placement, now: int, origin: Origin, rows: seq<Candidate>) {
    && DistinctIds(rows)
    && (forall k | 0 <= k < |rows| :: rows[k].id in table && table[rows[k].id] == rows[k].campaign
                                      && InterstitialMatch(rows[k].campaign, placement, now, origin))
    && (forall id | id in table && InterstitialMatch(table[id], placement, now, origin) ::
          Candidate(id, table[id]) in rows)
  }

  predicate DistinctIds(rows: seq<Candidate>) {
    forall i, j | 0 <= i < j < |rows| :: rows[i].id != rows[j].id
  }

  /** Every table has an answer. */
  lemma {:induction false} AnswerExists(table: Table, placement: Placement, now: int, origin: Origin)
    returns (rows: seq<Candidate>)
    ensures IsAnswer(table, placement, now, origin, rows)
    decreases |table|
  {
    if table == map[] {
      rows := [];
    } else {
      var id :| id in table;
      var rest := AnswerExists(table - {id}, placement, now, origin);
      assert |table - {id}| < |table| by { assert (table - {id}).Keys == table.Keys - {id}; }
      rows := if InterstitialMatch(table[id], placement, now, origin) then rest + [Candidate(id, table[id])] else rest;
      forall x | x in table && InterstitialMatch(table[x], placement, now, origin)
        ensures Candidate(x, table[x]) in rows
      {
        if x != id { assert x in table - {id} && Candidate(x, (table - {id})[x]) in rest; }
      }
    }
  }

  /** `targetSpecificity` */
  function Specificity(c: Campaign): int {
    if Truthy(c.buildingId) then 3 else if Truthy(c.targetCity) then 2 else if Truthy(c.targetCountry) then 1 else 0
  }

  /** The comparator is negative: more specific, then higher priority, then older, then smaller id. */
  predicate Ranks(a: Candidate, b: Candidate) {
    var x, y := a.campaign, b.campaign;
    || Specificity(x) > Specificity(y)
    || (Specificity(x) == Specificity(y)
        && (|| x.priority > y.priority
            || (x.priority == y.priority
                && (x.createdAt < y.createdAt || (x.createdAt == y.createdAt && a.id < b.id)))))
  }

  function Ranking(): (Candidate, Candidate) -> bool {
    (a, b) => Ranks(a, b)
  }

  /** The comparator is a strict order that tells any two campaigns with different ids apart. */
  lemma RankingIsTotal(a: Candidate, b: Candidate, c: Candidate)
    ensures !Ranks(a, a)
    ensures Ranks(a, b) && Ranks(b, c) ==> Ranks(a, c)
    ensures !Ranks(b, a) && !Ranks(c, b) ==> !Ranks(c, a)
    ensures a.id != b.id ==> Ranks(a, b) || Ranks(b, a)
  {
  }

  lemma RankingIsWeakOrder()
    ensures WeakOrder(Ranking())
  {
    forall x: Candidate, y: Candidate, z: Candidate
      ensures !Ranks(x, x) && (Ranks(x, y) && Ranks(y, z) ==> Ranks(x, z))
      ensures !Ranks(y, x) && !Ranks(z, y) ==> !Ranks(z, x)
    {
      RankingIsTotal(x, y, z);
    }
  }

  /** The filter on the slot. */
  function OnSlot(rows: seq<Candidate>, slotId: string): seq<Candidate> {
    if rows == [] then []
    else (if rows[0].campaign.slotId == Some(slotId) then [rows[0]] else []) + OnSlot(rows[1..], slotId)
  }

  /** `.filter(...).sort(...)[0]` */
  function Winner(rows: seq<Candidate>, slotId: string): Option<Candidate> {
    var sorted := Sort(Ranking(), OnSlot(rows, slotId));
    if sorted == [] then None else Some(sorted[0])
  }

  lemma {:induction false} OnSlotElements(rows: seq<Candidate>, slotId: string, c: Candidate)
    ensures c in OnSlot(rows, slotId) <==> c in rows && c.campaign.slotId == Some(slotId)
  {
    if rows != [] {
      OnSlotElements(rows[1..], slotId, c);
      assert rows == [rows[0]] + rows[1..];
    }
  }

  /** Being first: on the slot, and ranking before every other candidate there. */
  predicate Unbeaten(rows: seq<Candidate>, slotId: string, w: Candidate) {
    && w in rows
    && w.campaign.slotId == Some(slotId)
    && forall c | c in rows && c.campaign.slotId == Some(slotId) && c != w :: Ranks(w, c)
  }

  lemma UnbeatenIsUnique(rows: seq<Candidate>, slotId: string, v: Candidate, w: Candidate)
    requires Unbeaten(rows, slotId, v) && Unbeaten(rows, slotId, w)
    ensures v == w
  {
    RankingIsTotal(v, w, v);
  }

  /** The winner is the unbeaten candidate on the slot; there is none exactly when nobody is on the slot. */
  lemma WinnerIsUnbeaten(rows: seq<Candidate>, slotId: string)
    requires DistinctIds(rows)
    ensures Winner(rows, slotId) == None <==> forall c | c in rows :: c.campaign.slotId != Some(slotId)
    ensures forall w :: Winner(rows, slotId) == Some(w) <==> Unbeaten(rows, slotId, w)
  {
    var sorted := Sort(Ranking(), OnSlot(rows, slotId));
    SortedOnSlot(rows, slotId);
    if sorted != [] {
      var w := sorted[0];
      FirstIsUnbeaten(rows, slotId, sorted);
      hide DistinctIds, Sorted, Sort, Unbeaten;
      forall v | Unbeaten(rows, slotId, v) ensures v == w { UnbeatenIsUnique(rows, slotId, v, w); }
    }
  }

  /**
   * Nobody on the slot is more narrowly targeted than the winner, where a building is narrower than a city
   * and a city than a country; nor, if they are targeted alike, of higher priority; nor, at the same
   * priority, older; nor, of the same age, of a smaller id.
   */
  lemma WinnerDominates(rows: seq<Candidate>, slotId: string, w: Candidate, c: Candidate)
    requires DistinctIds(rows) && Winner(rows, slotId) == Some(w) && c in rows && c.campaign.slotId == Some(slotId)
    ensures var x, y := w.campaign, c.campaign;
      var building, city, country := Truthy(x.buildingId), Truthy(x.targetCity), Truthy(x.targetCountry);
      && (Truthy(y.buildingId) ==> building)
      && (Truthy(y.targetCity) ==> building || city)
      && (Truthy(y.targetCountry) ==> building || city || country)
      && (Specificity(x) == Specificity(y) ==>
            && x.priority >= y.priority
            && (x.priority == y.priority ==> x.createdAt <= y.createdAt)
            && (x.priority == y.priority && x.createdAt == y.createdAt ==> w.id <= c.id))
    ensures Specificity(w.campaign) == Specificity(c.campaign) <==>
      && Truthy(w.campaign.buildingId) == Truthy(c.campaign.buildingId)
      && (!Truthy(w.campaign.buildingId) ==> Truthy(w.campaign.targetCity) == Truthy(c.campaign.targetCity))
      && (!Truthy(w.campaign.buildingId) && !Truthy(w.campaign.targetCity) ==>
            Truthy(w.campaign.targetCountry) == Truthy(c.campaign.targetCountry))
  {
    WinnerIsUnbeaten(rows, slotId);
    assert Unbeaten(rows, slotId, w);
    hide Winner, DistinctIds, Unbeaten;
    assert c == w || Ranks(w, c);
  }

  lemma SortedOnSlot(rows: seq<Candidate>, slotId: string)
    ensures var sorted := Sort(Ranking(), OnSlot(rows, slotId));
      && Sorted(Ranking(), sorted)
      && forall c :: c in sorted <==> c in rows && c.campaign.slotId == Some(slotId)
  {
    var onSlot := OnSlot(rows, slotId);
    var sorted := Sort(Ranking(), onSlot);
    RankingIsWeakOrder();
    SortSorts(Ranking(), onSlot);
    forall c ensures c in sorted <==> c in rows && c.campaign.slotId == Some(slotId) {
      OnSlotElements(rows, slotId, c);
      assert c in sorted <==> c in multiset(sorted);
      assert c in onSlot <==> c in multiset(onSlot);
    }
  }

  lemma FirstIsUnbeaten(rows: seq<Candidate>, slotId: string, sorted: seq<Candidate>)
    requires DistinctIds(rows) && sorted != [] && Sorted(Ranking(), sorted)
    requires forall c :: c in sorted <==> c in rows && c.campaign.slotId == Some(slotId)
    ensures Unbeaten(rows, slotId, sorted[0])
  {
    var w := sorted[0];
    assert w in sorted;
    forall c | c in rows && c.campaign.slotId == Some(slotId) && c != w ensures Ranks(w, c) {
      assert c in sorted;
      var k :| 0 <= k < |sorted| && sorted[k] == c;
      assert !Ranking()(sorted[k], sorted[0]);
      RankingIsTotal(w, c, w);
    }
  }

  /** Hence the winner depends on which rows the query selects and not on the order it lists them in. */
  lemma WinnerIgnoresOrder(table: Table, placement: Placement, now: int, origin: Origin, slotId: string,
                           rows: seq<Candidate>, other: seq<Candidate>)
    requires IsAnswer(table, placement, now, origin, rows) && IsAnswer(table, placement, now, origin, other)
    ensures Winner(rows, slotId) == Winner(other, slotId)
  {
    WinnerIsUnbeaten(rows, slotId);
    WinnerIsUnbeaten(other, slotId);
    forall c ensures c in rows <==> c in other {
      if c in rows { assert Candidate(c.id, table[c.id]) in other; }
      if c in other { assert Candidate(c.id, table[c.id]) in rows; }
    }
    forall w ensures Unbeaten(rows, slotId, w) <==> Unbeaten(other, slotId, w) { }
    if Winner(rows, slotId).Some? {
      assert Unbeaten(other, slotId, Winner(rows, slotId).value);
    } else if Winner(other, slotId).Some? {
      assert Unbeaten(rows, slotId, Winner(other, slotId).value);
    }
  }

  // ----- what freedom from conflicts means for delivery -----

  /**
   * In a conflict-free table two campaigns of one scope are on a slot together only at the instant one
   * ends and the other starts: conflicts need a proper overlap, delivery includes both ends.
   */
  lemma SharedInstant(table: Table, i: Id, j: Id, now: int)
    requires ConflictFree(table) && ScheduledWell(table)
    requires i in table && j in table && i != j
    requires table[i].status.Active? && table[j].status.Active?
    requires table[i].slotId == table[j].slotId && table[i].buildingId == table[j].buildingId
    requires table[i].startsAt <= now <= table[i].endsAt && table[j].startsAt <= now <= table[j].endsAt
    ensures table[i].endsAt == now == table[j].startsAt || table[j].endsAt == now == table[i].startsAt
  {
    assert !Conflict(table[i], table[j]);
  }

  predicate BetweenBoundaries(table: Table, now: int) {
    forall id | id in table :: table[id].startsAt != now && table[id].endsAt != now
  }

  /**
   * Away from those instants the building's own campaign wins if there is one, and otherwise the only
   * candidate there is: priority, age and id never decide.
   */
  lemma ScopeDecides(table: Table, placement: Placement, now: int, origin: Origin, slotId: string,
                     rows: seq<Candidate>, c: Candidate)
    requires ConflictFree(table) && ScheduledWell(table) && ScopedWell(table) && BetweenBoundaries(table, now)
    requires IsAnswer(table, placement, now, origin, rows)
    requires c in rows && c.campaign.slotId == Some(slotId)
    ensures Winner(rows, slotId) == Some(c) <==>
              c.campaign.buildingId.Some?
              || forall d | d in rows && d.campaign.slotId == Some(slotId) :: d.campaign.buildingId == None
  {
    WinnerIsUnbeaten(rows, slotId);
    OthersInOtherScopes(table, placement, now, origin, slotId, rows, c);
    hide ConflictFree, ScheduledWell, ScopedWell, BetweenBoundaries, IsAnswer, Winner;
    if c.campaign.buildingId.Some? {
      assert Unbeaten(rows, slotId, c);
    } else if d: Candidate :| d in rows && d.campaign.slotId == Some(slotId) && d.campaign.buildingId.Some? {
      assert Ranks(d, c);
      RankingIsTotal(c, d, c);
      assert !Unbeaten(rows, slotId, c);
    } else {
      assert Unbeaten(rows, slotId, c);
    }
  }

  /** Away from those instants no two candidates on a slot are of one scope, and no two are of a building. */
  lemma OthersInOtherScopes(table: Table, placement: Placement, now: int, origin: Origin, slotId: string,
                            rows: seq<Candidate>, c: Candidate)
    requires ConflictFree(table) && ScheduledWell(table) && ScopedWell(table) && BetweenBoundaries(table, now)
    requires IsAnswer(table, placement, now, origin, rows)
    requires c in rows && c.campaign.slotId == Some(slotId)
    ensures c.campaign.buildingId != Some("")
    ensures forall d | d in rows && d.campaign.slotId == Some(slotId) && d != c ::
      && c.campaign.buildingId != d.campaign.buildingId
      && (c.campaign.buildingId == None || d.campaign.buildingId == None)
      && d.campaign.buildingId != Some("")
  {
    forall d | d in rows && d.campaign.slotId == Some(slotId) && d != c
      ensures c.campaign.buildingId != d.campaign.buildingId
      ensures c.campaign.buildingId == None || d.campaign.buildingId == None
    {
      if c.campaign.buildingId == d.campaign.buildingId { SharedInstant(table, c.id, d.id, now); }
    }
  }
}
