/**
 * Merging and reopening cases (src/modules/cases): the checks of `CasesService` and the conditional
 * updates of `CaseRepository`, first as one atomic call, then as an update that runs late.
 */
module Cases {
  import opened Wrappers

  type Id = nat

  datatype Status = Open | InProgress | WaitingUser | Resolved | Closed

  datatype Case = Case(buildingId: nat, status: Status, mergedInto: Option<Id>, createdBy: nat)

  type Table = map<Id, Case>

  datatype Error =
    | BuildingNotFound | UnitNotFound | MergeIntoItself | NotFound | AlreadyMerged | CaseClosed | WouldCycle
    | TargetMerged | TargetTerminal
    | NotAuthorized | NotReopenable | MergedCase | NotAssignable | AlreadyResolved | NotResolved | StatusChanged

  /** `mayAct` is what the role checks of the call answer. */
  datatype Call =
    | Assign(building: nat, id: Id, mayAct: bool)
    | Resolve(building: nat, id: Id)
    | Close(building: nat, id: Id)
    | Reopen(building: nat, id: Id, person: nat, mayAct: bool)
    | Merge(building: nat, id: Id, into: Id)

  predicate Terminal(s: Status) {
    s.Resolved? || s.Closed?
  }

  /** `getCaseOrThrow`: a case of another building is not found. */
  predicate Found(table: Table, building: nat, id: Id) {
    id in table && table[id].buildingId == building
  }

  /** The checks on the call's own case: the status the update will expect, or the error thrown. */
  function OwnCheck(table: Table, call: Call): Result<Status, Error> {
    if call.Merge? && call.id == call.into then Err(MergeIntoItself)
    else if !Found(table, call.building, call.id) then Err(NotFound)
    else
      var found := table[call.id];
      match call
      case Assign(_, _, mayAct) =>
        if Terminal(found.status) then Err(NotAssignable) else if !mayAct then Err(NotAuthorized) else Ok(found.status)
      case Resolve(_, _) => if Terminal(found.status) then Err(AlreadyResolved) else Ok(found.status)
      case Close(_, _) => if !found.status.Resolved? then Err(NotResolved) else Ok(found.status)
      case Reopen(_, _, person, mayAct) =>
        if found.createdBy != person && !mayAct then Err(NotAuthorized)
        else if !Terminal(found.status) then Err(NotReopenable)
        else if found.mergedInto.Some? then Err(MergedCase)
        else Ok(found.status)
      case Merge(_, _, _) =>
        if found.mergedInto.Some? then Err(AlreadyMerged)
        else if found.status.Closed? then Err(CaseClosed)
        else Ok(found.status)
  }

  /** The checks of a merge on its target, which is read afterwards. */
  function TargetCheck(table: Table, building: nat, id: Id, into: Id): Option<Error> {
    if !Found(table, building, into) then Some(NotFound)
    else if table[into].mergedInto == Some(id) then Some(WouldCycle)
    else if table[into].mergedInto.Some? then Some(TargetMerged)
    else if Terminal(table[into].status) then Some(TargetTerminal)
    else None
  }

  /** The checks of the five services. */
  function Check(table: Table, call: Call): Result<Status, Error> {
    var own := OwnCheck(table, call);
    if own.Ok? && call.Merge? && TargetCheck(table, call.building, call.id, call.into).Some?
    then Err(TargetCheck(table, call.building, call.id, call.into).value)
    else own
  }

  /** The WHERE of the update: the row, the status read before, and for a merge that it is still unmerged. */
  predicate Matches(table: Table, call: Call, expected: Status) {
    && call.id in table
    && table[call.id].status == expected
    && (call.Merge? ==> table[call.id].mergedInto.None?)
  }

  function Written(c: Case, call: Call): Case {
    match call
    case Assign(_, _, _) => c.(status := InProgress)
    case Resolve(_, _) => c.(status := Resolved)
    case Close(_, _) => c.(status := Closed)
    case Reopen(_, _, _, _) => c.(status := Open)
    case Merge(_, _, into) => c.(mergedInto := Some(into), status := Closed)
  }

  /** The `updateMany`: one row or none. */
  function Write(table: Table, call: Call, expected: Status): Table {
    if Matches(table, call, expected) then table[call.id := Written(table[call.id], call)] else table
  }

  function Added(table: Table, id: Id, building: nat, person: nat): Table {
    if id in table then table else table[id := Case(building, Open, None, person)]
  }

  /** One service call without interference. */
  function Step(table: Table, call: Call): Table {
    match Check(table, call)
    case Ok(expected) => Write(table, call, expected)
    case Err(_) => table
  }

  function ErrorOf(r: Result<Status, Error>): Option<Error> {
    if r.Err? then Some(r.error) else None
  }

  /** When each of the five calls is granted, said of the case, its target and the caller. */
  lemma GrantedIff(table: Table, call: Call)
    ensures Check(table, call).Ok? <==>
      && call.id in table && table[call.id].buildingId == call.building
      && var c := table[call.id];
      && match call
         case Assign(_, _, mayAct) => c.status in {Open, InProgress, WaitingUser} && mayAct
         case Resolve(_, _) => c.status in {Open, InProgress, WaitingUser}
         case Close(_, _) => c.status == Resolved
         case Reopen(_, _, person, mayAct) =>
           c.status in {Resolved, Closed} && c.mergedInto == None && (mayAct || c.createdBy == person)
         case Merge(building, id, into) =>
           && into != id && c.status != Closed && c.mergedInto == None
           && into in table && table[into].buildingId == building
           && table[into].status in {Open, InProgress, WaitingUser} && table[into].mergedInto == None
  {
  }

  /** What each error says of the call it is thrown for; those of a merge in the order in which they are asked. */
  predicate Refuses(table: Table, call: Call, e: Error) {
    var found := call.id in table && table[call.id].buildingId == call.building;
    match e
    case MergeIntoItself => call.Merge? && call.id == call.into
    case AlreadyMerged => call.Merge? && found && table[call.id].mergedInto != None
    case CaseClosed => call.Merge? && found && table[call.id].status == Closed
    case NotFound =>
      !found || (call.Merge? && !(call.into in table && table[call.into].buildingId == call.building))
    case WouldCycle => call.Merge? && call.into in table && table[call.into].mergedInto == Some(call.id)
    case TargetMerged => call.Merge? && call.into in table && table[call.into].mergedInto != None
    case TargetTerminal => call.Merge? && call.into in table && table[call.into].status in {Resolved, Closed}
    case NotAuthorized =>
      (call.Assign? && !call.mayAct)
      || (call.Reopen? && found && !call.mayAct && table[call.id].createdBy != call.person)
    case NotAssignable => call.Assign? && found && table[call.id].status in {Resolved, Closed}
    case AlreadyResolved => call.Resolve? && found && table[call.id].status in {Resolved, Closed}
    case NotResolved => call.Close? && found && table[call.id].status != Resolved
    case NotReopenable => call.Reopen? && found && table[call.id].status !in {Resolved, Closed}
    case MergedCase => call.Reopen? && found && table[call.id].mergedInto != None
    case _ => false
  }

  /** A call that is refused is refused for a reason that holds, and the reasons come in this order. */
  lemma RefusedFor(table: Table, call: Call)
    ensures Check(table, call).Err? ==> Refuses(table, call, Check(table, call).error)
    ensures Refuses(table, call, MergeIntoItself) ==> Check(table, call) == Err(MergeIntoItself)
    ensures Check(table, call) == Err(AlreadyMerged) <==>
      Refuses(table, call, AlreadyMerged) && !Refuses(table, call, MergeIntoItself)
    ensures Check(table, call) == Err(CaseClosed) <==>
      && Refuses(table, call, CaseClosed)
      && !Refuses(table, call, AlreadyMerged) && !Refuses(table, call, MergeIntoItself)
    ensures Check(table, call) == Err(TargetMerged) ==> !Refuses(table, call, WouldCycle)
    ensures Check(table, call) == Err(TargetTerminal) ==> !Refuses(table, call, TargetMerged)
    ensures Check(table, call).Err? && Check(table, call).error in {WouldCycle, TargetMerged, TargetTerminal} ==>
      !Refuses(table, call, AlreadyMerged) && !Refuses(table, call, CaseClosed) && !Refuses(table, call, NotFound)
    ensures Check(table, call) == Err(NotReopenable) ==> !Refuses(table, call, NotAuthorized)
    ensures Check(table, call) == Err(MergedCase) ==>
      !Refuses(table, call, NotAuthorized) && !Refuses(table, call, NotReopenable)
  {
  }

  /** What a granted call does, and to nothing but its own case. */
  lemma GrantedDoes(table: Table, call: Call)
    requires Check(table, call).Ok?
    ensures call.id in table && Step(table, call) == table[call.id := Step(table, call)[call.id]]
    ensures var before, after := table[call.id], Step(table, call)[call.id];
      && after.buildingId == before.buildingId && after.createdBy == before.createdBy
      && match call
         case Assign(_, _, _) => after.status == InProgress && after.mergedInto == before.mergedInto
         case Resolve(_, _) => after.status == Resolved && after.mergedInto == before.mergedInto
         case Close(_, _) => after.status == Closed && after.mergedInto == before.mergedInto
         case Reopen(_, _, _, _) => after.status == Open && after.mergedInto == before.mergedInto
         case Merge(_, _, into) => after.status == Closed && after.mergedInto == Some(into)
  {
  }

  class CaseService {
    var cases: Table

    constructor ()
      ensures cases == map[]
    {
      cases := map[];
    }

    /** `createCase`: the building must exist, and the unit, if one is given, must be one of its units. */
    method CreateCase(id: Id, building: nat, unit: Option<nat>, person: nat, buildings: set<nat>, units: map<nat, nat>)
      returns (error: Option<Error>)
      requires id !in cases
      modifies this
      ensures error == if building !in buildings then Some(BuildingNotFound)
                       else if unit.Some? && (unit.value !in units || units[unit.value] != building)
                       then Some(UnitNotFound)
                       else None
      ensures error == None ==> cases == Added(old(cases), id, building, person)
      ensures error != None ==> cases == old(cases)
      ensures old(MergedIsClosed(cases)) ==> MergedIsClosed(cases)
    {
      if building !in buildings { return Some(BuildingNotFound); }
      if unit.Some? {
        if unit.value !in units || units[unit.value] != building { return Some(UnitNotFound); }
      }
      cases := cases[id := Case(building, Open, None, person)];
      error := None;
    }

    method UpdateMany(call: Call, expected: Status) returns (count: nat)
      modifies this
      ensures cases == Write(old(cases), call, expected)
      ensures count == if Matches(old(cases), call, expected) then 1 else 0
    {
      if Matches(cases, call, expected) {
        cases := cases[call.id := Written(cases[call.id], call)];
        count := 1;
      } else {
        count := 0;
      }
    }

    /** `mergeCase`: afterwards the case hangs below an unmerged case of the same building. */
    method MergeCase(building: nat, id: Id, into: Id) returns (error: Option<Error>)
      modifies this
      ensures cases == Step(old(cases), Merge(building, id, into))
      ensures error == ErrorOf(Check(old(cases), Merge(building, id, into)))
      ensures error == None ==>
                && id in cases && cases[id].mergedInto == Some(into) && cases[id].status.Closed?
                && into in cases && cases[into].mergedInto.None? && cases[into].buildingId == cases[id].buildingId
      ensures error != None ==> cases == old(cases)
    {
      if id == into { return Some(MergeIntoItself); }
      if !Found(cases, building, id) { return Some(NotFound); }
      var found := cases[id];
      if found.mergedInto.Some? { return Some(AlreadyMerged); }
      if found.status.Closed? { return Some(CaseClosed); }
      if !Found(cases, building, into) { return Some(NotFound); }
      var target := cases[into];
      if target.mergedInto == Some(id) { return Some(WouldCycle); }
      if target.mergedInto.Some? { return Some(TargetMerged); }
      if target.status.Resolved? || target.status.Closed? { return Some(TargetTerminal); }
      var count := UpdateMany(Merge(building, id, into), found.status);
      error := if count == 1 then None else Some(StatusChanged);
    }

    method ReopenCase(building: nat, id: Id, person: nat, privileged: bool) returns (error: Option<Error>)
      modifies this
      ensures cases == Step(old(cases), Reopen(building, id, person, privileged))
      ensures error == ErrorOf(Check(old(cases), Reopen(building, id, person, privileged)))
      ensures error == None ==> id in cases && cases[id].status.Open? && cases[id].mergedInto.None?
      ensures error != None ==> cases == old(cases)
    {
      if !Found(cases, building, id) { return Some(NotFound); }
      var found := cases[id];
      if found.createdBy != person && !privileged { return Some(NotAuthorized); }
      if !Terminal(found.status) { return Some(NotReopenable); }
      if found.mergedInto.Some? { return Some(MergedCase); }
      var count := UpdateMany(Reopen(building, id, person, privileged), found.status);
      error := if count == 1 then None else Some(StatusChanged);
    }
  }

  // ----- the merge relation -----

  /** Following `mergedIntoId` for at most n steps: the unmerged case it ends at, if it does. */
  function RootWithin(table: Table, id: Id, n: nat): Option<Id>
    decreases n
  {
    if id !in table then None
    else if table[id].mergedInto.None? then Some(id)
    else if n == 0 then None
    else RootWithin(table, table[id].mergedInto.value, n - 1)
  }

  ghost predicate HasRoot(table: Table, id: Id, root: Id) {
    exists n: nat :: RootWithin(table, id, n) == Some(root)
  }

  /** Every chain ends, so the relation has no cycle. */
  ghost predicate Forest(table: Table) {
    forall id | id in table :: exists root: Id :: HasRoot(table, id, root)
  }

  lemma {:induction false} MoreStepsAgree(table: Table, id: Id, n: nat, m: nat)
    requires n <= m && RootWithin(table, id, n).Some?
    ensures RootWithin(table, id, m) == RootWithin(table, id, n)
    decreases n
  {
    if table[id].mergedInto.Some? { MoreStepsAgree(table, table[id].mergedInto.value, n - 1, m - 1); }
  }

  /** The root is unique and unmerged. */
  lemma RootIsUnique(table: Table, id: Id, r: Id, s: Id)
    requires HasRoot(table, id, r) && HasRoot(table, id, s)
    ensures r == s && r in table && table[r].mergedInto.None?
  {
    var n: nat :| RootWithin(table, id, n) == Some(r);
    var m: nat :| RootWithin(table, id, m) == Some(s);
    MoreStepsAgree(table, id, n, n + m);
    MoreStepsAgree(table, id, m, n + m);
    RootIsUnmerged(table, id, n);
  }

  lemma {:induction false} RootIsUnmerged(table: Table, id: Id, n: nat)
    requires RootWithin(table, id, n).Some?
    ensures var r := RootWithin(table, id, n).value; r in table && table[r].mergedInto.None?
    decreases n
  {
    if table[id].mergedInto.Some? { RootIsUnmerged(table, table[id].mergedInto.value, n - 1); }
  }

  /** Rows keep their parents, and may have got company. */
  predicate SameParents(table: Table, after: Table) {
    forall id | id in table :: id in after && after[id].mergedInto == table[id].mergedInto
  }

  lemma {:induction false} SameParentsSameRoot(table: Table, after: Table, id: Id, n: nat)
    requires SameParents(table, after) && RootWithin(table, id, n).Some?
    ensures RootWithin(after, id, n) == RootWithin(table, id, n)
    decreases n
  {
    if table[id].mergedInto.Some? { SameParentsSameRoot(table, after, table[id].mergedInto.value, n - 1); }
  }

  /** What a merge does to the table, whoever the target is by then. */
  function Hung(table: Table, a: Id, b: Id): Table
    requires a in table
  {
    table[a := table[a].(mergedInto := Some(b), status := Closed)]
  }

  /** Chains that end elsewhere do not pass through an unmerged case. */
  lemma {:induction false} OtherTreesStay(table: Table, a: Id, b: Id, id: Id, n: nat)
    requires a in table && table[a].mergedInto.None? && RootWithin(table, id, n).Some?
    requires RootWithin(table, id, n) != Some(a)
    ensures RootWithin(Hung(table, a, b), id, n) == RootWithin(table, id, n)
    decreases n
  {
    if table[id].mergedInto.Some? { OtherTreesStay(table, a, b, table[id].mergedInto.value, n - 1); }
  }

  /** The whole tree of the merged case moves below the target's root. */
  lemma {:induction false} TreeMoves(table: Table, a: Id, b: Id, m: nat, id: Id, n: nat)
    requires a in table && table[a].mergedInto.None?
    requires RootWithin(table, b, m).Some? && RootWithin(table, b, m) != Some(a)
    requires RootWithin(table, id, n) == Some(a)
    ensures RootWithin(Hung(table, a, b), id, n + 1 + m) == RootWithin(table, b, m)
    decreases n
  {
    if id == a {
      OtherTreesStay(table, a, b, b, m);
      MoreStepsAgree(Hung(table, a, b), b, m, n + m);
    } else {
      TreeMoves(table, a, b, m, table[id].mergedInto.value, n - 1);
    }
  }

  /** Hanging a case below its own tree leaves that tree without a root. */
  lemma {:induction false} TreeIsLost(table: Table, a: Id, b: Id, m: nat, id: Id, n: nat, k: nat)
    requires a in table && table[a].mergedInto.None?
    requires RootWithin(table, b, m) == Some(a) && RootWithin(table, id, n) == Some(a)
    ensures RootWithin(Hung(table, a, b), id, k) == None
    decreases k
  {
    if k > 0 {
      if id == a {
        TreeIsLost(table, a, b, m, b, m, k - 1);
      } else {
        TreeIsLost(table, a, b, m, table[id].mergedInto.value, n - 1, k - 1);
      }
    }
  }

  // ----- late updates: what the checks saw may be long gone -----

  /** What a check guarantees about its call and the status it read, for good. */
  predicate Grantable(table: Table, call: Call, expected: Status) {
    match call
    case Assign(_, _, _) => !Terminal(expected)
    case Resolve(_, _) => !Terminal(expected)
    case Close(_, _) => expected.Resolved?
    case Reopen(_, _, _, _) => Terminal(expected)
    case Merge(building, id, into) =>
      id != into && Found(table, building, id) && Found(table, building, into) && !expected.Closed?
  }

  lemma ChecksGrant(table: Table, call: Call)
    requires Check(table, call).Ok?
    ensures Grantable(table, call, Check(table, call).value) && Matches(table, call, Check(table, call).value)
  {
  }

  /** The update that closes a cycle: the target's chain already ends at the case being merged. */
  ghost predicate ClosesCycle(table: Table, call: Call, expected: Status) {
    call.Merge? && Matches(table, call, expected) && HasRoot(table, call.into, call.id)
  }

  /** After a merge every case of the merged tree has the target's root, and every other case its own. */
  lemma MergeRoots(table: Table, a: Id, b: Id, root: Id, id: Id, r: Id)
    requires a in table && table[a].mergedInto.None? && HasRoot(table, b, root) && root != a && HasRoot(table, id, r)
    ensures HasRoot(Hung(table, a, b), id, if r == a then root else r)
  {
    var m: nat :| RootWithin(table, b, m) == Some(root);
    var n: nat :| RootWithin(table, id, n) == Some(r);
    if r == a {
      TreeMoves(table, a, b, m, id, n);
      assert RootWithin(Hung(table, a, b), id, n + 1 + m) == Some(root);
    } else {
      OtherTreesStay(table, a, b, id, n);
    }
  }

  lemma ParentsStay(table: Table, after: Table, id: Id)
    requires SameParents(table, after) && exists root: Id :: HasRoot(table, id, root)
    ensures exists root: Id :: HasRoot(after, id, root)
  {
    var root: Id :| HasRoot(table, id, root);
    var n: nat :| RootWithin(table, id, n) == Some(root);
    SameParentsSameRoot(table, after, id, n);
    assert HasRoot(after, id, root);
  }

  /** An update, however late, keeps the forest exactly when it does not hang a case below its own tree. */
  lemma WriteKeepsForest(table: Table, call: Call, expected: Status)
    requires Forest(table) && Grantable(table, call, expected)
    ensures Forest(Write(table, call, expected)) <==> !ClosesCycle(table, call, expected)
  {
    var after := Write(table, call, expected);
    if !call.Merge? || !Matches(table, call, expected) {
      assert SameParents(table, after);
      forall id | id in after ensures exists root: Id :: HasRoot(after, id, root) { ParentsStay(table, after, id); }
    } else {
      var a, b := call.id, call.into;
      assert after == Hung(table, a, b);
      var root: Id :| HasRoot(table, b, root);
      if root == a {
        var m: nat :| RootWithin(table, b, m) == Some(a);
        forall r: Id ensures !HasRoot(after, a, r) {
          forall k: nat ensures RootWithin(after, a, k) == None { TreeIsLost(table, a, b, m, a, 0, k); }
        }
        assert a in after && !(exists r: Id :: HasRoot(after, a, r));
      } else {
        if HasRoot(table, b, a) { RootIsUnique(table, b, root, a); }
        forall id | id in after ensures exists r: Id :: HasRoot(after, id, r) {
          var r: Id :| HasRoot(table, id, r);
          MergeRoots(table, a, b, root, id, r);
        }
      }
    }
  }

  lemma AddingKeepsForest(table: Table, id: Id, building: nat, person: nat)
    requires Forest(table)
    ensures Forest(Added(table, id, building, person))
  {
    var after := Added(table, id, building, person);
    assert SameParents(table, after);
    forall x | x in after ensures exists root: Id :: HasRoot(after, x, root) {
      if x in table {
        ParentsStay(table, after, x);
      } else {
        assert RootWithin(after, x, 0) == Some(x);
        assert HasRoot(after, x, x);
      }
    }
  }

  predicate MergedIsClosed(table: Table) {
    forall id | id in table && table[id].mergedInto.Some? :: table[id].status.Closed?
  }

  /** A merged case leaves CLOSED only through the late update of a reopening. */
  lemma WriteKeepsMergedClosed(table: Table, call: Call, expected: Status)
    requires MergedIsClosed(table) && Grantable(table, call, expected)
    ensures MergedIsClosed(Write(table, call, expected)) <==>
              !(call.Reopen? && Matches(table, call, expected) && table[call.id].mergedInto.Some?)
  {
    if Matches(table, call, expected) {
      var after := Write(table, call, expected);
      forall id | id in after && id != call.id ensures after[id] == table[id] { }
      assert after[call.id] == Written(table[call.id], call);
    }
  }

  // ----- calls whose reads and update come at different moments -----

  /** A call between its first read and its update: the status it read, and whether it has looked at its target. */
  datatype Job = Job(call: Call, expected: Status, looked: bool)

  /** The table, and the calls that are under way. */
  datatype Desk = Desk(table: Table, jobs: map<nat, Job>)

  /** One await of a call after the other, and new cases. */
  datatype Event =
    | Read(k: nat, call: Call)
    | Look(k: nat)
    | Save(k: nat)
    | Create(id: Id, building: nat, person: nat)

  predicate Ready(d: Desk, k: nat) {
    k in d.jobs && (d.jobs[k].call.Merge? ==> d.jobs[k].looked)
  }

  /** What the look at its target answers a merge that is under way. */
  function TargetError(d: Desk, k: nat): Option<Error>
    requires k in d.jobs && d.jobs[k].call.Merge?
  {
    var call := d.jobs[k].call;
    TargetCheck(d.table, call.building, call.id, call.into)
  }

  /** A call that throws is under way no longer. */
  function Happens(d: Desk, e: Event): Desk {
    match e
    case Read(k, call) =>
      if k !in d.jobs && OwnCheck(d.table, call).Ok?
      then d.(jobs := d.jobs[k := Job(call, OwnCheck(d.table, call).value, false)]) else d
    case Look(k) =>
      if k !in d.jobs || !d.jobs[k].call.Merge? || d.jobs[k].looked then d
      else if TargetError(d, k).Some? then d.(jobs := d.jobs - {k})
      else d.(jobs := d.jobs[k := d.jobs[k].(looked := true)])
    case Save(k) =>
      if Ready(d, k) then Desk(Write(d.table, d.jobs[k].call, d.jobs[k].expected), d.jobs - {k}) else d
    case Create(id, building, person) => d.(table := Added(d.table, id, building, person))
  }

  /** The desk after the first n events. */
  function At(d: Desk, run: seq<Event>, n: nat): Desk
    requires n <= |run|
  {
    if n == 0 then d else Happens(At(d, run, n - 1), run[n - 1])
  }

  /** Without interference the three steps are the atomic call. */
  lemma UninterruptedIsStep(d: Desk, k: nat, call: Call)
    requires k !in d.jobs
    ensures Happens(Happens(Happens(d, Read(k, call)), Look(k)), Save(k)) == d.(table := Step(d.table, call))
  {
    var a := Happens(d, Read(k, call));
    var b := Happens(a, Look(k));
    if k in a.jobs {
      assert a.jobs - {k} == d.jobs;
      if k in b.jobs { assert b.jobs - {k} == d.jobs; }
    }
  }

  // ----- what no interleaving breaks -----

  /** What the reads of a call have established for good. */
  predicate JobOk(table: Table, j: Job) {
    match j.call
    case Merge(building, id, into) =>
      id != into && Found(table, building, id) && !j.expected.Closed? && (j.looked ==> Found(table, building, into))
    case _ => Grantable(table, j.call, j.expected)
  }

  predicate JobsOk(d: Desk) {
    forall k | k in d.jobs :: JobOk(d.table, d.jobs[k])
  }

  lemma EventKeepsRows(d: Desk, e: Event, id: Id)
    requires id in d.table
    ensures id in Happens(d, e).table && Happens(d, e).table[id].buildingId == d.table[id].buildingId
    ensures d.table[id].mergedInto.Some? ==> Happens(d, e).table[id].mergedInto == d.table[id].mergedInto
  {
  }

  lemma EventKeepsJobs(d: Desk, e: Event)
    requires JobsOk(d)
    ensures JobsOk(Happens(d, e))
  {
    var after := Happens(d, e);
    forall building, id | Found(d.table, building, id) ensures Found(after.table, building, id) {
      EventKeepsRows(d, e, id);
    }
    hide Write, Added;
  }

  lemma {:induction false} RunKeepsJobs(d: Desk, run: seq<Event>, n: nat)
    requires JobsOk(d) && n <= |run|
    ensures JobsOk(At(d, run, n))
  {
    if n > 0 {
      RunKeepsJobs(d, run, n - 1);
      EventKeepsJobs(At(d, run, n - 1), run[n - 1]);
    }
  }

  /** Whatever the interleaving, rows stay, and a merged case keeps its target and is never merged again. */
  lemma {:induction false} MergedForGood(d: Desk, run: seq<Event>, m: nat, n: nat, id: Id)
    requires m <= n <= |run| && id in At(d, run, m).table
    ensures var before, after := At(d, run, m).table, At(d, run, n).table;
      && id in after && after[id].buildingId == before[id].buildingId
      && (before[id].mergedInto.Some? ==> after[id].mergedInto == before[id].mergedInto)
    decreases n
  {
    if m < n {
      MergedForGood(d, run, m, n - 1, id);
      EventKeepsRows(At(d, run, n - 1), run[n - 1], id);
    }
  }

  // ----- the forest -----

  ghost predicate Cycles(d: Desk, e: Event) {
    e.Save? && Ready(d, e.k) && ClosesCycle(d.table, d.jobs[e.k].call, d.jobs[e.k].expected)
  }

  lemma EventKeepsForest(d: Desk, e: Event)
    requires Forest(d.table) && JobsOk(d)
    ensures Forest(Happens(d, e).table) <==> !Cycles(d, e)
  {
    match e
    case Save(k) => if Ready(d, k) { WriteKeepsForest(d.table, d.jobs[k].call, d.jobs[k].expected); }
    case Create(id, building, person) => AddingKeepsForest(d.table, id, building, person);
    case _ =>
  }

  ghost predicate ForestThroughout(d: Desk, run: seq<Event>) {
    forall n: nat | n <= |run| :: Forest(At(d, run, n).table)
  }

  ghost predicate NoCycleClosed(d: Desk, run: seq<Event>) {
    forall n: nat | n < |run| :: !Cycles(At(d, run, n), run[n])
  }

  lemma {:induction false} ForestWhileNoneCycles(d: Desk, run: seq<Event>, n: nat)
    requires Forest(d.table) && JobsOk(d) && n <= |run| && NoCycleClosed(d, run)
    ensures Forest(At(d, run, n).table)
  {
    hide Happens, Cycles, Forest, JobsOk;
    if n > 0 {
      ForestWhileNoneCycles(d, run, n - 1);
      RunKeepsJobs(d, run, n - 1);
      EventKeepsForest(At(d, run, n - 1), run[n - 1]);
    }
  }

  lemma ForestMeansNoCycle(d: Desk, run: seq<Event>, n: nat)
    requires ForestThroughout(d, run) && JobsOk(d) && n < |run|
    ensures !Cycles(At(d, run, n), run[n])
  {
    var now := At(d, run, n);
    assert At(d, run, n + 1) == Happens(now, run[n]);
    assert Forest(At(d, run, n + 1).table) && Forest(now.table);
    RunKeepsJobs(d, run, n);
    EventKeepsForest(now, run[n]);
  }

  /** Over every interleaving the merge relation stays a forest exactly while no update closes a cycle. */
  lemma RunKeepsForest(d: Desk, run: seq<Event>)
    requires Forest(d.table) && JobsOk(d)
    ensures ForestThroughout(d, run) <==> NoCycleClosed(d, run)
  {
    hide At, Happens, Cycles, Forest, JobsOk;
    if NoCycleClosed(d, run) {
      forall n: nat | n <= |run| ensures Forest(At(d, run, n).table) { ForestWhileNoneCycles(d, run, n); }
    }
    if ForestThroughout(d, run) {
      forall n: nat | n < |run| ensures !Cycles(At(d, run, n), run[n]) { ForestMeansNoCycle(d, run, n); }
    }
  }

  // ----- the history of a pending call -----

  /** Event i read the case for call k, which has been under way from then to n. */
  predicate Pending(d: Desk, run: seq<Event>, k: nat, i: nat, n: nat)
    requires i < n <= |run|
  {
    && run[i].Read? && run[i].k == k && k !in At(d, run, i).jobs
    && OwnCheck(At(d, run, i).table, run[i].call).Ok?
    && forall m: nat | i < m <= n ::
         && k in At(d, run, m).jobs
         && At(d, run, m).jobs[k].call == run[i].call
         && At(d, run, m).jobs[k].expected == OwnCheck(At(d, run, i).table, run[i].call).value
  }

  /** Event i looked at the target of merge k, which has been ready from then to n. */
  predicate Looked(d: Desk, run: seq<Event>, k: nat, i: nat, n: nat)
    requires i < n <= |run|
  {
    && run[i] == Look(k) && k in At(d, run, i).jobs && At(d, run, i).jobs[k].call.Merge?
    && TargetError(At(d, run, i), k) == None
    && forall m: nat | i < m <= n ::
         k in At(d, run, m).jobs && At(d, run, m).jobs[k].looked
         && At(d, run, m).jobs[k].call == At(d, run, i).jobs[k].call
  }

  /** A job was there before, or this event read its case; and only its own look makes it ready. */
  lemma JobOrigin(d: Desk, e: Event, k: nat)
    requires k in Happens(d, e).jobs
    ensures var after := Happens(d, e).jobs[k];
      if k in d.jobs then
        && after.call == d.jobs[k].call && after.expected == d.jobs[k].expected
        && (after.looked != d.jobs[k].looked ==> e == Look(k) && after.call.Merge? && TargetError(d, k) == None)
        && (d.jobs[k].looked ==> after.looked)
      else
        e.Read? && e.k == k && OwnCheck(d.table, e.call).Ok?
        && after == Job(e.call, OwnCheck(d.table, e.call).value, false)
  {
  }

  lemma {:induction false} PendingSince(d: Desk, run: seq<Event>, k: nat, n: nat) returns (i: nat)
    requires d.jobs == map[] && n <= |run| && k in At(d, run, n).jobs
    ensures i < n && Pending(d, run, k, i, n)
  {
    JobOrigin(At(d, run, n - 1), run[n - 1], k);
    hide Happens, OwnCheck;
    if k in At(d, run, n - 1).jobs { i := PendingSince(d, run, k, n - 1); } else { i := n - 1; }
  }

  lemma {:induction false} LookedSince(d: Desk, run: seq<Event>, k: nat, n: nat) returns (i: nat)
    requires d.jobs == map[] && n <= |run| && k in At(d, run, n).jobs && At(d, run, n).jobs[k].looked
    ensures i < n && Looked(d, run, k, i, n)
  {
    JobOrigin(At(d, run, n - 1), run[n - 1], k);
    hide Happens, TargetError;
    if At(d, run, n - 1).jobs[k].looked { i := LookedSince(d, run, k, n - 1); } else { i := n - 1; }
  }

  /** Event j merges the case into another. */
  predicate Merges(d: Desk, run: seq<Event>, j: nat, id: Id)
    requires j < |run|
  {
    && id in At(d, run, j).table && At(d, run, j).table[id].mergedInto.None?
    && id in At(d, run, j + 1).table && At(d, run, j + 1).table[id].mergedInto.Some?
  }

  lemma {:induction false} MergesBetween(d: Desk, run: seq<Event>, id: Id, m: nat, n: nat) returns (j: nat)
    requires m <= n <= |run| && id in At(d, run, m).table && At(d, run, m).table[id].mergedInto.None?
    requires id in At(d, run, n).table && At(d, run, n).table[id].mergedInto.Some?
    ensures m <= j < n && Merges(d, run, j, id)
    decreases n - m
  {
    EventKeepsRows(At(d, run, m), run[m], id);
    hide Happens;
    if At(d, run, m + 1).table[id].mergedInto.None? { j := MergesBetween(d, run, id, m + 1, n); } else { j := m; }
  }

  // ----- crossing merges -----

  /** An update that closes a cycle belongs to a merge whose target was merged after the merge had looked at it. */
  lemma CycleIsCrossing(d: Desk, run: seq<Event>, n: nat) returns (i: nat, j: nat)
    requires d.jobs == map[] && n < |run| && Forest(At(d, run, n).table) && Cycles(At(d, run, n), run[n])
    ensures i < j < n && Looked(d, run, run[n].k, i, n)
    ensures Merges(d, run, j, At(d, run, n).jobs[run[n].k].call.into)
  {
    var now := At(d, run, n);
    var call := now.jobs[run[n].k].call;
    i := LookedSince(d, run, run[n].k, n);
    assert At(d, run, i).jobs[run[n].k].call == call;
    RunKeepsJobs(d, run, n);
    MergedForGood(d, run, i, n, call.into);
    NoRootBelow(now.table, call.into, call.id);
    j := MergesBetween(d, run, call.into, i, n);
    assert At(d, run, i + 1).table == At(d, run, i).table;
  }

  /** An unmerged case is its own root. */
  lemma NoRootBelow(table: Table, id: Id, root: Id)
    requires id in table && HasRoot(table, id, root) && id != root
    ensures table[id].mergedInto.Some?
  {
  }

  /** No case is merged while a merge into it, which has looked at it already, is under way. */
  ghost predicate Uncrossed(d: Desk, run: seq<Event>) {
    forall k: nat, i: nat, j: nat, n: nat {:trigger Looked(d, run, k, i, n), At(d, run, j)} ::
      i < j < n < |run| && run[n] == Save(k) && Looked(d, run, k, i, n)
      ==> !Merges(d, run, j, At(d, run, n).jobs[k].call.into)
  }

  lemma {:induction false} ForestUpTo(d: Desk, run: seq<Event>, n: nat)
    requires Forest(d.table) && d.jobs == map[] && Uncrossed(d, run) && n <= |run|
    ensures Forest(At(d, run, n).table)
  {
    if n > 0 {
      ForestUpTo(d, run, n - 1);
      RunKeepsJobs(d, run, n - 1);
      EventKeepsForest(At(d, run, n - 1), run[n - 1]);
      hide Happens, Forest, JobsOk, Looked, Merges, ClosesCycle, Ready;
      if Cycles(At(d, run, n - 1), run[n - 1]) { var i, j := CycleIsCrossing(d, run, n - 1); }
    }
  }

  /** Callers that keep to that never see a cycle. */
  lemma UncrossedRunsKeepForest(d: Desk, run: seq<Event>)
    requires Forest(d.table) && d.jobs == map[] && Uncrossed(d, run)
    ensures ForestThroughout(d, run)
  {
    forall n: nat | n <= |run| ensures Forest(At(d, run, n).table) { ForestUpTo(d, run, n); }
  }

  // ----- reopening what has been merged -----

  /**
   * Event i checked a reopening of the case, event j merged the case, and event n is the update of that
   * reopening, which still finds the status it expects.
   */
  predicate ReopensMerged(d: Desk, run: seq<Event>, id: Id, i: nat, j: nat, n: nat)
    requires i < j < n < |run|
  {
    && run[n].Save? && Pending(d, run, run[n].k, i, n) && run[i].call.Reopen? && run[i].call.id == id
    && Merges(d, run, j, id)
    && Matches(At(d, run, n).table, run[i].call, At(d, run, n).jobs[run[n].k].expected)
  }

  ghost predicate MergedClosedThroughout(d: Desk, run: seq<Event>) {
    forall n: nat | n <= |run| :: MergedIsClosed(At(d, run, n).table)
  }

  /** The first update after which a merged case is open belongs to a reopening checked before the merge. */
  lemma OpeningIsLate(d: Desk, run: seq<Event>, n: nat) returns (id: Id, i: nat, j: nat)
    requires d.jobs == map[] && n < |run|
    requires MergedIsClosed(At(d, run, n).table) && !MergedIsClosed(At(d, run, n + 1).table)
    ensures i < j < n && ReopensMerged(d, run, id, i, j, n)
  {
    var now := At(d, run, n);
    RunKeepsJobs(d, run, n);
    var call, expected := now.jobs[run[n].k].call, now.jobs[run[n].k].expected;
    WriteKeepsMergedClosed(now.table, call, expected);
    id := call.id;
    i := PendingSince(d, run, run[n].k, n);
    assert At(d, run, i + 1).table == At(d, run, i).table;
    assert now.jobs[run[n].k].call == run[i].call;
    j := MergesBetween(d, run, id, i, n);
  }

  lemma {:induction false} FirstOpening(d: Desk, run: seq<Event>, n: nat) returns (m: nat)
    requires MergedIsClosed(d.table) && n <= |run| && !MergedIsClosed(At(d, run, n).table)
    ensures m < n && MergedIsClosed(At(d, run, m).table) && !MergedIsClosed(At(d, run, m + 1).table)
  {
    hide Happens, MergedIsClosed;
    if MergedIsClosed(At(d, run, n - 1).table) { m := n - 1; } else { m := FirstOpening(d, run, n - 1); }
  }

  lemma ReopeningOpens(d: Desk, run: seq<Event>, id: Id, i: nat, j: nat, n: nat)
    requires i < j < n < |run| && ReopensMerged(d, run, id, i, j, n)
    ensures !MergedIsClosed(At(d, run, n + 1).table)
  {
    MergedForGood(d, run, j + 1, n, id);
    assert At(d, run, n).jobs[run[n].k].call == run[i].call;
    var now, after := At(d, run, n), At(d, run, n + 1);
    assert after.table == Write(now.table, run[i].call, now.jobs[run[n].k].expected);
    assert after.table[id] == now.table[id].(status := Open) && now.table[id].mergedInto.Some?;
  }

  /**
   * Over every interleaving of calls that begin on an idle desk, merged cases stay closed exactly while no
   * reopening checked before its case was merged is written after that.
   */
  lemma RunKeepsMergedClosed(d: Desk, run: seq<Event>)
    requires MergedIsClosed(d.table) && d.jobs == map[]
    ensures MergedClosedThroughout(d, run) <==>
      !(exists id, i: nat, j: nat, n: nat :: i < j < n < |run| && ReopensMerged(d, run, id, i, j, n))
  {
    hide At, Happens, MergedIsClosed, ReopensMerged;
    if !MergedClosedThroughout(d, run) {
      var n: nat :| n <= |run| && !MergedIsClosed(At(d, run, n).table);
      var m := FirstOpening(d, run, n);
      var id, i, j := OpeningIsLate(d, run, m);
    }
    forall id, i: nat, j: nat, n: nat | i < j < n < |run| && ReopensMerged(d, run, id, i, j, n)
      ensures !MergedClosedThroughout(d, run)
    {
      ReopeningOpens(d, run, id, i, j, n);
    }
  }

  // ----- atomic calls -----

  /** Without interference both dangers are gone: the checks still hold when the update runs. */
  lemma AtomicCallIsSafe(table: Table, call: Call)
    requires Forest(table) && MergedIsClosed(table)
    ensures Forest(Step(table, call)) && MergedIsClosed(Step(table, call))
  {
    if Check(table, call).Ok? {
      var expected := Check(table, call).value;
      ChecksGrant(table, call);
      if call.Merge? {
        assert RootWithin(table, call.into, 0) == Some(call.into);
        assert HasRoot(table, call.into, call.into);
        if HasRoot(table, call.into, call.id) { RootIsUnique(table, call.into, call.into, call.id); }
      }
      WriteKeepsForest(table, call, expected);
      WriteKeepsMergedClosed(table, call, expected);
    }
  }

  datatype Action = Serve(call: Call) | Add(id: Id, building: nat, person: nat)

  function Acted(table: Table, action: Action): Table {
    match action
    case Serve(call) => Step(table, call)
    case Add(id, building, person) => Added(table, id, building, person)
  }

  function Served(table: Table, actions: seq<Action>): Table
    decreases actions
  {
    if actions == [] then table else Served(Acted(table, actions[0]), actions[1..])
  }

  /**
   * On every run of atomic calls the merge relation is a forest of closed cases below unmerged roots,
   * and what is merged stays merged into the same case and closed.
   */
  lemma {:induction false} AtomicRunsKeepForest(table: Table, actions: seq<Action>)
    requires Forest(table) && MergedIsClosed(table)
    ensures Forest(Served(table, actions)) && MergedIsClosed(Served(table, actions))
    ensures forall id | id in table && table[id].mergedInto.Some? ::
              id in Served(table, actions) && Served(table, actions)[id] == table[id]
    decreases actions
  {
    if actions != [] {
      if actions[0].Serve? {
        AtomicCallIsSafe(table, actions[0].call);
      } else {
        AddingKeepsForest(table, actions[0].id, actions[0].building, actions[0].person);
      }
      AtomicRunsKeepForest(Acted(table, actions[0]), actions[1..]);
    }
  }

  // ----- what interference can do -----

  /** A call that would be granted is ready after its reads. */
  lemma Granted(d: Desk, k: nat, call: Call)
    requires k !in d.jobs && Check(d.table, call).Ok?
    ensures Happens(Happens(d, Read(k, call)), Look(k)) ==
      d.(jobs := d.jobs[k := Job(call, Check(d.table, call).value, call.Merge?)])
  {
  }

  lemma Saved(d: Desk, k: nat)
    requires Ready(d, k)
    ensures Happens(d, Save(k)) == Desk(Write(d.table, d.jobs[k].call, d.jobs[k].expected), d.jobs - {k})
  {
  }

  lemma TwoMore(d: Desk, run: seq<Event>, n: nat)
    requires n + 2 <= |run|
    ensures At(d, run, n + 2) == Happens(Happens(At(d, run, n), run[n]), run[n + 1])
  {
    assert At(d, run, n + 1) == Happens(At(d, run, n), run[n]);
  }

  const TWO_OPEN: Table := map[1 := Case(7, Open, None, 3), 2 := Case(7, Open, None, 3)]
  const CROSSING := [Read(1, Merge(7, 1, 2)), Look(1), Read(2, Merge(7, 2, 1)), Look(2), Save(1), Save(2)]

  /** Two crossing merges whose checks both come first close a cycle. */
  lemma CrossingMerges()
    ensures Forest(TWO_OPEN) && !Forest(At(Desk(TWO_OPEN, map[]), CROSSING, 6).table)
  {
    var d := Desk(TWO_OPEN, map[]);
    BothHang();
    hide Forest;
    TwoMore(d, CROSSING, 0);
    TwoMore(d, CROSSING, 2);
    TwoMore(d, CROSSING, 4);
    Granted(d, 1, Merge(7, 1, 2));
    Granted(At(d, CROSSING, 2), 2, Merge(7, 2, 1));
    var b := At(d, CROSSING, 4);
    Saved(b, 1);
    Saved(Happens(b, Save(1)), 2);
  }

  lemma BothHang()
    ensures Forest(TWO_OPEN)
    ensures Check(TWO_OPEN, Merge(7, 1, 2)) == Ok(Open) && Check(TWO_OPEN, Merge(7, 2, 1)) == Ok(Open)
    ensures !Forest(Write(Write(TWO_OPEN, Merge(7, 1, 2), Open), Merge(7, 2, 1), Open))
  {
    forall id | id in TWO_OPEN ensures exists root: Id :: HasRoot(TWO_OPEN, id, root) {
      assert RootWithin(TWO_OPEN, id, 0) == Some(id);
      assert HasRoot(TWO_OPEN, id, id);
    }
    var after := Write(TWO_OPEN, Merge(7, 1, 2), Open);
    FirstHangs(after);
    assert RootWithin(after, 1, 1) == RootWithin(after, 2, 0) == Some(2);
    assert HasRoot(after, 1, 2);
    assert Forest(after);
    WriteKeepsForest(after, Merge(7, 2, 1), Open);
  }

  lemma FirstHangs(after: Table)
    requires after == Write(TWO_OPEN, Merge(7, 1, 2), Open)
    ensures forall id | id in after :: exists root: Id :: HasRoot(after, id, root)
  {
    assert RootWithin(after, 2, 0) == Some(2);
    assert RootWithin(after, 1, 1) == RootWithin(after, 2, 0);
    assert HasRoot(after, 1, 2) && HasRoot(after, 2, 2);
  }

  const ONE_CLOSED: Table := TWO_OPEN[1 := Case(7, Closed, None, 3)]
  const REOPEN := Reopen(7, 1, 3, false)
  const LATE_REOPENING :=
    [Read(1, REOPEN), Look(1), Read(2, REOPEN), Save(2), Read(3, Merge(7, 1, 2)), Look(3), Save(3), Save(1)]

  /** A reopening that was checked before another reopening and a merge: the merged case is open. */
  lemma ReopenedAfterMerge()
    ensures var d := Desk(ONE_CLOSED, map[]);
      && MergedIsClosed(ONE_CLOSED)
      && At(d, LATE_REOPENING, 7).table == TWO_OPEN[1 := Case(7, Closed, Some(2), 3)]
      && At(d, LATE_REOPENING, 8).table == TWO_OPEN[1 := Case(7, Open, Some(2), 3)]
  {
    var d := Desk(ONE_CLOSED, map[]);
    TwoMore(d, LATE_REOPENING, 0);
    TwoMore(d, LATE_REOPENING, 2);
    TwoMore(d, LATE_REOPENING, 4);
    TwoMore(d, LATE_REOPENING, 6);
    Granted(d, 1, REOPEN);
    var a := At(d, LATE_REOPENING, 2);
    ReopensOnce(a);
    hide Happens;
    Granted(At(d, LATE_REOPENING, 4), 3, Merge(7, 1, 2));
    var c := At(d, LATE_REOPENING, 6);
    Saved(c, 3);
    Saved(Happens(c, Save(3)), 1);
    assert At(d, LATE_REOPENING, 7) == Happens(c, Save(3));
  }

  lemma ReopensOnce(a: Desk)
    requires a == Desk(ONE_CLOSED, map[1 := Job(REOPEN, Closed, false)])
    ensures Happens(Happens(a, Read(2, REOPEN)), Save(2)) == Desk(TWO_OPEN, a.jobs)
  {
    var job := Job(REOPEN, Closed, false);
    assert Happens(a, Read(2, REOPEN)) == Desk(ONE_CLOSED, map[1 := job, 2 := job]);
    assert map[1 := job, 2 := job] - {2} == a.jobs;
    assert ONE_CLOSED[1 := ONE_CLOSED[1].(status := Open)] == TWO_OPEN;
  }
}
