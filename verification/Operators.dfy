/** The deployment table and the operators that poll, claim and execute its rows
    (internal/store/deployment.go, internal/cli/operator.go). Each SQL statement, and each
    transaction, is one step; any number of operator processes take steps in any order. */
module Operators {

  datatype Status = Pending | Running | Succeeded | Failed | RolledBack {
    predicate Final() { Succeeded? || Failed? || RolledBack? }
  }

  type Id = string

  datatype Row = Row(recipeId: string, teamId: string, environment: string, status: Status, log: string,
                     startedAt: int, finished: bool, orderNumber: int, version: int)

  type Table = map<Id, Row>

  // ---- Atomic table steps ----

  function OrderNumbers(t: Table, team: string): map<Id, int> {
    map id | id in t && t[id].teamId == team :: t[id].orderNumber
  }

  function Versions(t: Table, recipe: string, env: string): map<Id, int> {
    map id | id in t && t[id].recipeId == recipe && t[id].environment == env :: t[id].version
  }

  /** COALESCE(MAX(n), 0) + 1 over one column */
  predicate NextNumber(used: map<Id, int>, n: int) {
    if used == map[] then n == 1
    else (exists id :: id in used && used[id] == n - 1) && forall id :: id in used ==> used[id] < n
  }

  predicate OldestPending(t: Table, id: Id) {
    && id in t && t[id].status.Pending?
    && forall other :: other in t && t[other].status.Pending? ==> t[id].startedAt <= t[other].startedAt
  }

  function Claimed(t: Table, id: Id): Table {
    if id in t && t[id].status.Pending? then t[id := t[id].(status := Running)] else t
  }

  function StatusUpdated(t: Table, id: Id, status: Status, log: string, finished: bool): Table {
    if id !in t then t
    else t[id := t[id].(status := status, log := if log != "" then log else t[id].log, finished := finished)]
  }

  function LogAppended(t: Table, id: Id, text: string): Table {
    if id !in t then t else t[id := t[id].(log := t[id].log + text)]
  }

  predicate MayCreate(t: Table, r: Row) {
    && r.status.Pending? && r.log == "" && !r.finished
    && NextNumber(OrderNumbers(t, r.teamId), r.orderNumber)
    && NextNumber(Versions(t, r.recipeId, r.environment), r.version)
  }

  class Store {
    var rows: Table

    constructor ()
      ensures rows == map[]
    {
      rows := map[];
    }

    method CreateDeployment(id: Id, recipeId: string, teamId: string, env: string, now: int) returns (r: Row)
      requires id !in rows
      modifies this
      ensures MayCreate(old(rows), r) && rows == old(rows)[id := r]
      ensures r.recipeId == recipeId && r.teamId == teamId && r.environment == env && r.startedAt == now
    {
      var orderNumber := Next(OrderNumbers(rows, teamId));
      var version := Next(Versions(rows, recipeId, env));
      r := Row(recipeId, teamId, env, Pending, "", now, false, orderNumber, version);
      rows := rows[id := r];
    }

    method PendingDeployments() returns (ids: seq<Id>)
      ensures ids == [] ==> forall id :: id in rows ==> !rows[id].status.Pending?
      ensures ids != [] ==> |ids| == 1 && OldestPending(rows, ids[0])
    {
      ids := [];
      var rest := rows.Keys;
      while rest != {}
        invariant rest <= rows.Keys
        invariant ids == [] ==> forall id :: id in rows && id !in rest ==> !rows[id].status.Pending?
        invariant ids != [] ==> |ids| == 1 && ids[0] in rows && rows[ids[0]].status.Pending?
        invariant ids != [] ==> forall id :: id in rows && id !in rest && rows[id].status.Pending? ==>
                                  rows[ids[0]].startedAt <= rows[id].startedAt
        decreases |rest|
      {
        var id :| id in rest;
        rest := rest - {id};
        if rows[id].status.Pending? && (ids == [] || rows[id].startedAt < rows[ids[0]].startedAt) {
          ids := [id];
        }
      }
    }

    method ClaimDeployment(id: Id) returns (ok: bool)
      modifies this
      ensures rows == Claimed(old(rows), id)
      ensures ok <==> id in old(rows) && old(rows)[id].status.Pending?
    {
      ok := id in rows && rows[id].status.Pending?;
      if ok { rows := rows[id := rows[id].(status := Running)]; }
    }

    method UpdateDeploymentStatus(id: Id, status: Status, log: string, finished: bool) returns (ok: bool)
      modifies this
      ensures rows == StatusUpdated(old(rows), id, status, log, finished)
      ensures ok <==> id in old(rows)
    {
      ok := id in rows;
      if ok {
        var r := rows[id].(status := status, finished := finished);
        if log != "" { r := r.(log := log); }
        rows := rows[id := r];
      }
    }

    method AppendDeploymentLog(id: Id, text: string) returns (ok: bool)
      modifies this
      ensures rows == LogAppended(old(rows), id, text)
      ensures ok <==> id in old(rows)
    {
      ok := id in rows;
      if ok { rows := rows[id := rows[id].(log := rows[id].log + text)]; }
    }

    method DeleteDeployment(id: Id) returns (ok: bool)
      modifies this
      ensures rows == old(rows) - {id}
      ensures ok <==> id in old(rows)
    {
      ok := id in rows;
      rows := rows - {id};
    }
  }

  method Next(used: map<Id, int>) returns (n: int)
    ensures NextNumber(used, n)
  {
    n := 1;
    var rest := used.Keys;
    while rest != {}
      invariant rest <= used.Keys
      invariant rest == used.Keys ==> n == 1
      invariant rest != used.Keys ==> exists id :: id in used && used[id] == n - 1
      invariant rest != used.Keys ==> forall id :: id in used && id !in rest ==> used[id] < n
      decreases |rest|
    {
      var id :| id in rest;
      if rest == used.Keys || used[id] >= n { n := used[id] + 1; }
      rest := rest - {id};
    }
  }

  // ---- How far the pipeline gets ----

  datatype DeployStatus = DeploySucceeded | DeployFailed | DeployRolledBack | DeployOther

  /** How far the pipeline gets: what the recipe store, the parser, the plan builder, the validator and
      the deployer answer. */
  datatype Outcome = NoRecipe | BadRecipe | NoPlan | InvalidPlan | DeployError | Deployed(status: DeployStatus)

  function DeployStatusString(s: DeployStatus): Status {
    match s
    case DeployFailed => Failed
    case DeployRolledBack => RolledBack
    case _ => Succeeded
  }

  function FinalStatus(o: Outcome): Status {
    match o case Deployed(s) => DeployStatusString(s) case _ => Failed
  }

  /** A deployment ends as rolled back or succeeded only if the deployer was reached and says so, where all
      but a failure or a roll-back is a success. In every other case it has failed. */
  lemma FinalMeans(o: Outcome)
    ensures FinalStatus(o).Succeeded? <==> o == Deployed(DeploySucceeded) || o == Deployed(DeployOther)
    ensures FinalStatus(o).RolledBack? <==> o == Deployed(DeployRolledBack)
    ensures FinalStatus(o).Failed? <==> !o.Deployed? || o.status.DeployFailed?
  {
  }

  // ---- Operators ----

  datatype Operator = Idle | Polled(id: Id) | Working(id: Id)

  /** The table, what each operator is doing, and the history of the run: every id ever used, who
      claimed what, and every final status written. */
  datatype State = State(rows: Table, ops: map<int, Operator>, used: set<Id>,
                         claims: seq<(int, Id)>, finals: seq<(int, Id)>)

  function Init(): State { State(map[], map[], {}, [], []) }

  function OpAt(s: State, op: int): Operator { if op in s.ops then s.ops[op] else Idle }

  datatype Step =
    | Create(id: Id, row: Row)
    | Delete(id: Id)
    | Poll(op: int, id: Id)
    | Claim(op: int)
    | AppendLog(op: int, text: string)
    | WriteFinal(op: int, status: Status)
    | LoseFinal(op: int)
    | Crash(op: int)

  predicate Enabled(s: State, a: Step) {
    match a
    case Create(id, row) => id !in s.used && MayCreate(s.rows, row)
    case Delete(id) => id in s.rows
    case Poll(op, id) => OpAt(s, op).Idle? && OldestPending(s.rows, id)
    case Claim(op) => OpAt(s, op).Polled?
    case AppendLog(op, _) => OpAt(s, op).Working?
    case WriteFinal(op, status) => OpAt(s, op).Working? && status.Final()
    case LoseFinal(op) => OpAt(s, op).Working?
    case Crash(op) => true
  }

  function After(s: State, a: Step): State
    requires Enabled(s, a)
  {
    match a
    case Create(id, row) => s.(rows := s.rows[id := row], used := s.used + {id})
    case Delete(id) => s.(rows := s.rows - {id})
    case Poll(op, id) => s.(ops := s.ops[op := Polled(id)])
    case Claim(op) =>
      var id := s.ops[op].id;
      if id in s.rows && s.rows[id].status.Pending? then
        s.(rows := Claimed(s.rows, id), ops := s.ops[op := Working(id)], claims := s.claims + [(op, id)])
      else s.(ops := s.ops[op := Idle])
    case AppendLog(op, text) => s.(rows := LogAppended(s.rows, s.ops[op].id, text))
    case WriteFinal(op, status) =>
      s.(rows := StatusUpdated(s.rows, s.ops[op].id, status, "", true), ops := s.ops[op := Idle],
         finals := s.finals + [(op, s.ops[op].id)])
    case LoseFinal(op) => s.(ops := s.ops[op := Idle])
    case Crash(op) => s.(ops := s.ops[op := Idle])
  }

  // ---- Every reachable state ----

  ghost predicate DistinctIds(h: seq<(int, Id)>) {
    forall i, j :: 0 <= i < j < |h| ==> h[i].1 != h[j].1
  }

  ghost predicate ClaimInv(s: State) {
    && s.rows.Keys <= s.used
    // a row was claimed if and only if it is no longer pending
    && (forall i :: 0 <= i < |s.claims| ==> s.claims[i].1 in s.used)
    && (forall i :: 0 <= i < |s.claims| && s.claims[i].1 in s.rows ==> !s.rows[s.claims[i].1].status.Pending?)
    // each deployment is claimed once
    && DistinctIds(s.claims)
    // only the claimer works on it
    && (forall op :: op in s.ops && s.ops[op].Working? ==> (op, s.ops[op].id) in s.claims)
    && (forall op :: op in s.ops && s.ops[op].Polled? ==> s.ops[op].id in s.used)
  }

  /** A final status is written once, by the claimer, who then stops working on it. */
  ghost predicate FinalHistory(s: State) {
    && DistinctIds(s.finals)
    && (forall f :: f in s.finals ==> f in s.claims)
    && (forall op, f :: op in s.ops && s.ops[op].Working? && f in s.finals ==> f.1 != s.ops[op].id)
  }

  /** A row is final if and only if that was written. */
  ghost predicate FinalRows(s: State) {
    forall id :: id in s.rows ==> (s.rows[id].status.Final() <==> exists f :: f in s.finals && f.1 == id)
  }

  ghost predicate FinalInv(s: State) { FinalHistory(s) && FinalRows(s) }

  /** Numbers are unique among the rows that share a counter. */
  ghost predicate NumbersUnique(t: Table) {
    forall a, b :: a in t && b in t && a != b ==>
      && (t[a].teamId == t[b].teamId ==> t[a].orderNumber != t[b].orderNumber)
      && (t[a].recipeId == t[b].recipeId && t[a].environment == t[b].environment ==> t[a].version != t[b].version)
  }

  ghost predicate Inv(s: State) { ClaimInv(s) && FinalInv(s) && NumbersUnique(s.rows) }

  lemma StepKeepsClaims(s: State, a: Step)
    requires ClaimInv(s) && Enabled(s, a)
    ensures ClaimInv(After(s, a))
  {
  }

  lemma StepKeepsFinalHistory(s: State, a: Step)
    requires ClaimInv(s) && FinalHistory(s) && Enabled(s, a)
    ensures FinalHistory(After(s, a))
  {
  }

  lemma StepKeepsFinalRows(s: State, a: Step)
    requires ClaimInv(s) && FinalHistory(s) && FinalRows(s) && Enabled(s, a)
    ensures FinalRows(After(s, a))
  {
  }

  lemma StepKeepsFinals(s: State, a: Step)
    requires ClaimInv(s) && FinalInv(s) && Enabled(s, a)
    ensures FinalInv(After(s, a))
  {
    hide ClaimInv, FinalHistory, FinalRows, Enabled, After;
    StepKeepsFinalHistory(s, a);
    StepKeepsFinalRows(s, a);
  }

  lemma StepKeepsNumbers(s: State, a: Step)
    requires NumbersUnique(s.rows) && Enabled(s, a)
    ensures NumbersUnique(After(s, a).rows)
  {
    if a.Create? {
      forall id | id in s.rows
        ensures s.rows[id].teamId == a.row.teamId ==> s.rows[id].orderNumber < a.row.orderNumber
        ensures s.rows[id].recipeId == a.row.recipeId && s.rows[id].environment == a.row.environment ==>
                  s.rows[id].version < a.row.version
      {
        assert s.rows[id].teamId == a.row.teamId ==> id in OrderNumbers(s.rows, a.row.teamId);
        assert s.rows[id].recipeId == a.row.recipeId && s.rows[id].environment == a.row.environment ==>
                 id in Versions(s.rows, a.row.recipeId, a.row.environment);
      }
    }
  }

  /** A deployment only moves forward: pending, running, final. */
  ghost predicate Forward(before: Status, after: Status) {
    before == after || (before.Pending? && after.Running?) || (before.Running? && after.Final())
      || (before.Pending? && after.Final())
  }

  ghost predicate RowsForward(s: State, t: State) {
    s.used <= t.used &&
    forall id :: id in s.used && id in t.rows ==> id in s.rows && Forward(s.rows[id].status, t.rows[id].status)
  }

  lemma StepForward(s: State, a: Step)
    requires Inv(s) && Enabled(s, a)
    ensures RowsForward(s, After(s, a))
  {
  }

  ghost predicate RunsTo(s: State, steps: seq<Step>, t: State)
    decreases |steps|
  {
    if steps == [] then s == t
    else Enabled(s, steps[0]) && RunsTo(After(s, steps[0]), steps[1..], t)
  }

  lemma StepKeepsInv(s: State, a: Step)
    requires Inv(s) && Enabled(s, a)
    ensures Inv(After(s, a)) && RowsForward(s, After(s, a))
    ensures s.claims <= After(s, a).claims && s.finals <= After(s, a).finals
  {
    hide ClaimInv, FinalInv, NumbersUnique, RowsForward, Enabled;
    StepKeepsClaims(s, a);
    StepKeepsFinals(s, a);
    StepKeepsNumbers(s, a);
    StepForward(s, a);
  }

  lemma ForwardTransitive(s: State, t: State, u: State)
    requires RowsForward(s, t) && RowsForward(t, u)
    ensures RowsForward(s, u)
  {
  }

  /** Over any run: the invariant holds, statuses only move forward, and history is never rewritten. */
  lemma {:induction false} RunKeepsInv(s: State, steps: seq<Step>, t: State)
    requires Inv(s) && RunsTo(s, steps, t)
    ensures Inv(t) && RowsForward(s, t) && s.claims <= t.claims && s.finals <= t.finals
    decreases |steps|
  {
    hide Inv, RowsForward, Enabled, After;
    if steps == [] {
      ForwardReflexive(s);
    } else {
      StepKeepsInv(s, steps[0]);
      RunKeepsInv(After(s, steps[0]), steps[1..], t);
      ForwardTransitive(s, After(s, steps[0]), t);
    }
  }

  lemma ForwardReflexive(s: State)
    requires Inv(s)
    ensures RowsForward(s, s)
  {
  }

  ghost predicate Reachable(s: State) {
    exists steps :: RunsTo(Init(), steps, s)
  }

  lemma ReachableInv(s: State)
    requires Reachable(s)
    ensures Inv(s)
  {
    hide RunsTo;
    var steps :| RunsTo(Init(), steps, s);
    RunKeepsInv(Init(), steps, s);
  }

  /** No two operators ever claim one deployment. */
  lemma ClaimedByOne(s: State, op1: int, op2: int, id: Id)
    requires Reachable(s) && (op1, id) in s.claims && (op2, id) in s.claims
    ensures op1 == op2
  {
    ReachableInv(s);
  }

  lemma ExclusiveWork(s: State, op1: int, op2: int)
    requires Reachable(s) && OpAt(s, op1).Working? && OpAt(s, op1) == OpAt(s, op2)
    ensures op1 == op2
  {
    ReachableInv(s);
    var id := s.ops[op1].id;
    assert (op1, id) in s.claims && (op2, id) in s.claims;
  }

  /** After a claim the deployment is never pending again, never claimed again, and gets at most one
      final status, which only its claimer writes. */
  lemma ClaimIsForGood(s: State, op: int, steps: seq<Step>, t: State)
    requires Reachable(s) && Enabled(s, Claim(op)) && s.ops[op].id in s.rows && s.rows[s.ops[op].id].status.Pending?
    requires RunsTo(After(s, Claim(op)), steps, t)
    ensures var id := s.ops[op].id;
            && (id in t.rows ==> !t.rows[id].status.Pending?)
            && (forall i, j :: 0 <= i < j < |t.claims| && t.claims[i].1 == id ==> t.claims[j].1 != id)
            && (forall c :: c in t.claims && c.1 == id ==> c.0 == op)
            && (forall f :: f in t.finals && f.1 == id ==> f.0 == op)
            && (forall i, j :: 0 <= i < j < |t.finals| && t.finals[i].1 == id ==> t.finals[j].1 != id)
  {
    ReachableInv(s);
    var s1 := After(s, Claim(op));
    var id := s.ops[op].id;
    StepKeepsInv(s, Claim(op));
    RunKeepsInv(s1, steps, t);
    assert s1.claims[|s1.claims| - 1] == (op, id);
    assert t.claims[|s1.claims| - 1] == (op, id);
  }

  /** A final status never changes again. */
  lemma FinalIsForGood(s: State, id: Id, steps: seq<Step>, t: State)
    requires Reachable(s) && id in s.rows && s.rows[id].status.Final() && RunsTo(s, steps, t)
    ensures id in t.rows ==> t.rows[id].status == s.rows[id].status
  {
    ReachableInv(s);
    RunKeepsInv(s, steps, t);
    assert id in s.used;
  }

  // ---- One poll cycle ----

  predicate By(a: Step, op: int) {
    match a
    case Create(_, _) => false
    case Delete(_) => false
    case Poll(o, _) => o == op
    case Claim(o) => o == op
    case AppendLog(o, _) => o == op
    case WriteFinal(o, _) => o == op
    case LoseFinal(o) => o == op
    case Crash(o) => o == op
  }

  /** The steps that an operator takes in a run, in order. */
  ghost function Own(steps: seq<Step>, op: int): seq<Step> {
    if steps == [] then []
    else Own(steps[..|steps| - 1], op) + if By(steps[|steps| - 1], op) then [steps[|steps| - 1]] else []
  }

  lemma OwnSnoc(steps: seq<Step>, a: Step, op: int)
    ensures Own(steps + [a], op) == Own(steps, op) + if By(a, op) then [a] else []
  {
    assert (steps + [a])[..|steps|] == steps;
  }

  lemma {:induction false} RunSnoc(s: State, steps: seq<Step>, t: State, a: Step)
    requires RunsTo(s, steps, t) && Enabled(t, a)
    ensures RunsTo(s, steps + [a], After(t, a))
    decreases |steps|
  {
    hide Enabled, After;
    if steps == [] {
      assert ([] + [a])[1..] == [];
    } else {
      RunSnoc(After(s, steps[0]), steps[1..], t, a);
      assert (steps + [a])[1..] == steps[1..] + [a];
    }
  }

  lemma OthersKeep(s: State, a: Step, op: int)
    requires Enabled(s, a) && !By(a, op)
    ensures OpAt(After(s, a), op) == OpAt(s, op) && s.claims <= After(s, a).claims
  {
  }

  lemma NextUnique(used: map<Id, int>, m: int, n: int)
    requires NextNumber(used, m) && NextNumber(used, n)
    ensures m == n
  {
  }

  lemma RowsUsed(s: State, steps: seq<Step>)
    requires RunsTo(Init(), steps, s)
    ensures s.rows.Keys <= s.used
  {
    hide RunsTo;
    ReachableInv(s);
  }

  /** The table together with the processes that use it. trace is the history of the run. */
  class System {
    const store: Store
    var ops: map<int, Operator>
    var used: set<Id>
    var claims: seq<(int, Id)>
    var finals: seq<(int, Id)>
    ghost var trace: seq<Step>

    function Now(): State
      reads this, store
    {
      State(store.rows, ops, used, claims, finals)
    }

    ghost predicate Valid()
      reads this, store
    {
      RunsTo(Init(), trace, Now())
    }

    constructor (store: Store)
      requires store.rows == map[]
      ensures Valid() && this.store == store && trace == []
    {
      this.store := store;
      ops, used, claims, finals, trace := map[], {}, [], [], [];
    }

    /** One step of some process. */
    method Take(a: Step)
      requires Valid() && Enabled(Now(), a)
      modifies this, store
      ensures Valid() && trace == old(trace) + [a] && Now() == After(old(Now()), a)
    {
      hide MayCreate, RunsTo, NextNumber;
      ghost var s := Now();
      RowsUsed(s, trace);
      match a {
        case Create(id, row) => TakeCreate(id, row);
        case Delete(id) =>
          var ok := store.DeleteDeployment(id);
        case Poll(op, id) => ops := ops[op := Polled(id)];
        case Claim(op) => TakeClaim(op);
        case AppendLog(op, text) =>
          var ok := store.AppendDeploymentLog(ops[op].id, text);
        case WriteFinal(op, status) =>
          var ok := store.UpdateDeploymentStatus(ops[op].id, status, "", true);
          finals := finals + [(op, ops[op].id)];
          ops := ops[op := Idle];
        case LoseFinal(op) => ops := ops[op := Idle];
        case Crash(op) => ops := ops[op := Idle];
      }
      RunSnoc(Init(), trace, s, a);
      trace := trace + [a];
    }

    method TakeCreate(id: Id, row: Row)
      requires Enabled(Now(), Create(id, row)) && id !in store.rows
      modifies this`used, store
      ensures Now() == After(old(Now()), Create(id, row))
    {
      var r := store.CreateDeployment(id, row.recipeId, row.teamId, row.environment, row.startedAt);
      NextUnique(OrderNumbers(old(store.rows), row.teamId), r.orderNumber, row.orderNumber);
      NextUnique(Versions(old(store.rows), row.recipeId, row.environment), r.version, row.version);
      assert r == row;
      used := used + {id};
    }

    method TakeClaim(op: int)
      requires Enabled(Now(), Claim(op))
      modifies this`ops, this`claims, store
      ensures Now() == After(old(Now()), Claim(op))
    {
      var id := ops[op].id;
      var ok := store.ClaimDeployment(id);
      ops := ops[op := if ok then Working(id) else Idle];
      if ok { claims := claims + [(op, id)]; }
    }

    /** What others do while the operator does nothing, as far as it is possible. */
    method Others(op: int, steps: seq<Step>)
      requires Valid()
      modifies this, store
      ensures Valid() && Own(trace, op) == old(Own(trace, op)) && OpAt(Now(), op) == old(OpAt(Now(), op))
      ensures old(claims) <= claims
    {
      hide By, OpAt, Own;
      for i := 0 to |steps|
        invariant Valid() && Own(trace, op) == old(Own(trace, op)) && OpAt(Now(), op) == old(OpAt(Now(), op))
        invariant old(claims) <= claims
      {
        hide Enabled, After;
        if Enabled(Now(), steps[i]) && !By(steps[i], op) {
          OthersKeep(Now(), steps[i], op);
          OwnSnoc(trace, steps[i], op);
          Take(steps[i]);
        }
      }
    }

    /** A step that leaves the operator at its work. */
    method TakeOwn(op: int, a: Step)
      requires Valid() && Enabled(Now(), a) && By(a, op) && (a.AppendLog? || a.Poll?)
      modifies this, store
      ensures Valid() && Own(trace, op) == old(Own(trace, op)) + [a]
      ensures OpAt(Now(), op) == if a.Poll? then Polled(a.id) else old(OpAt(Now(), op))
      ensures claims == old(claims)
    {
      hide Own, RunsTo;
      OwnSnoc(trace, a, op);
      Take(a);
    }

    method ClaimPolled(op: int) returns (ok: bool)
      requires Valid() && OpAt(Now(), op).Polled?
      modifies this, store
      ensures Valid() && Own(trace, op) == old(Own(trace, op)) + [Claim(op)]
      ensures var id := old(OpAt(Now(), op)).id;
              && (ok <==> id in old(store.rows) && old(store.rows)[id].status.Pending?)
              && OpAt(Now(), op) == (if ok then Working(id) else Idle)
              && claims == old(claims) + if ok then [(op, id)] else []
    {
      hide Own, RunsTo;
      var id := ops[op].id;
      ok := id in store.rows && store.rows[id].status.Pending?;
      OwnSnoc(trace, Claim(op), op);
      Take(Claim(op));
    }
  }

  /** Since before, the operator has only written log lines. */
  ghost predicate Logged(before: seq<Step>, now: seq<Step>) {
    before <= now && forall i :: |before| <= i < |now| ==> now[i].AppendLog?
  }

  /** Since before, the operator has written log lines, and then one final status. */
  ghost predicate LoggedThenFinal(before: seq<Step>, now: seq<Step>, op: int, status: Status) {
    now != [] && now[|now| - 1] == WriteFinal(op, status) && Logged(before, now[..|now| - 1])
  }

  /** What the others do before each of the operator's steps. */
  type Schedule = int -> seq<Step>

  method LogMsg(sys: System, op: int, msg: string, others: seq<Step>, ghost before: seq<Step>)
    requires sys.Valid() && OpAt(sys.Now(), op).Working? && Logged(before, Own(sys.trace, op))
    modifies sys, sys.store
    ensures sys.Valid() && OpAt(sys.Now(), op) == old(OpAt(sys.Now(), op)) && Logged(before, Own(sys.trace, op))
    ensures old(sys.claims) <= sys.claims
  {
    hide Own, RunsTo;
    sys.Others(op, others);
    OwnSnoc(sys.trace, AppendLog(op, msg + "\n"), op);
    sys.TakeOwn(op, AppendLog(op, msg + "\n"));
  }

  method Finish(sys: System, op: int, status: Status, others: seq<Step>, ghost before: seq<Step>)
    requires sys.Valid() && OpAt(sys.Now(), op).Working? && status.Final() && Logged(before, Own(sys.trace, op))
    modifies sys, sys.store
    ensures sys.Valid() && OpAt(sys.Now(), op).Idle? && LoggedThenFinal(before, Own(sys.trace, op), op, status)
    ensures old(sys.claims) <= sys.claims
    ensures var id := old(OpAt(sys.Now(), op)).id; id in sys.store.rows ==> sys.store.rows[id].status == status
  {
    hide Own, RunsTo;
    sys.Others(op, others);
    ghost var own := Own(sys.trace, op);
    OwnSnoc(sys.trace, WriteFinal(op, status), op);
    sys.Take(WriteFinal(op, status));
    assert Own(sys.trace, op)[..|own|] == own;
  }

  method FailDeployment(sys: System, op: int, msg: string, others: Schedule, ghost before: seq<Step>)
    requires sys.Valid() && OpAt(sys.Now(), op).Working? && Logged(before, Own(sys.trace, op))
    modifies sys, sys.store
    ensures sys.Valid() && OpAt(sys.Now(), op).Idle? && LoggedThenFinal(before, Own(sys.trace, op), op, Failed)
    ensures old(sys.claims) <= sys.claims
    ensures var id := old(OpAt(sys.Now(), op)).id; id in sys.store.rows ==> sys.store.rows[id].status == Failed
  {
    hide Own, RunsTo, Logged, LoggedThenFinal;
    LogMsg(sys, op, "ERROR: " + msg, others(1), before);
    Finish(sys, op, Failed, others(2), before);
  }

  /** The operator's own steps are log lines and one final status, whatever others do in between; the row
      has that status, unless somebody deleted it. */
  method ExecuteDeployment(sys: System, op: int, outcome: Outcome, others: Schedule, ghost before: seq<Step>)
    requires sys.Valid() && OpAt(sys.Now(), op).Working? && outcome != NoRecipe && Logged(before, Own(sys.trace, op))
    modifies sys, sys.store
    ensures sys.Valid() && OpAt(sys.Now(), op).Idle? && old(sys.claims) <= sys.claims
    ensures LoggedThenFinal(before, Own(sys.trace, op), op, FinalStatus(outcome))
    ensures var id := old(OpAt(sys.Now(), op)).id;
            id in sys.store.rows ==> sys.store.rows[id].status == FinalStatus(outcome)
  {
    hide Own, RunsTo, Logged, LoggedThenFinal;
    LogMsg(sys, op, "Parsing recipe...", others(3), before);
    if outcome.BadRecipe? { FailDeployment(sys, op, "recipe parse failed", others, before); return; }
    LogMsg(sys, op, "Building plan...", others(4), before);
    if outcome.NoPlan? { FailDeployment(sys, op, "plan build failed", others, before); return; }
    LogMsg(sys, op, "Validating plan...", others(5), before);
    if outcome.InvalidPlan? { FailDeployment(sys, op, "plan validation failed", others, before); return; }
    LogMsg(sys, op, "Deploying...", others(6), before);
    if outcome.DeployError? { FailDeployment(sys, op, "deploy failed", others, before); return; }
    LogMsg(sys, op, "Deploy completed", others(7), before);
    Finish(sys, op, DeployStatusString(outcome.status), others(8), before);
  }

  // ---- What the work comes to, whatever others do ----

  /** The text that log steps write. */
  function Texts(steps: seq<Step>): string {
    if steps == [] then ""
    else Texts(steps[..|steps| - 1]) +
         match steps[|steps| - 1] case AppendLog(_, text) => text case _ => ""
  }

  lemma TextsSnoc(steps: seq<Step>, a: Step)
    ensures Texts(steps + [a]) == Texts(steps) + match a case AppendLog(_, text) => text case _ => ""
  {
    assert (steps + [a])[..|steps|] == steps;
  }

  /** The row of a deployment that an operator works on is out of reach of all others, but for deletion. */
  lemma RowUntouched(s: State, a: Step, op: int, id: Id)
    requires Inv(s) && Enabled(s, a) && !By(a, op) && OpAt(s, op) == Working(id)
    ensures id in After(s, a).rows ==> id in s.rows && After(s, a).rows[id] == s.rows[id]
  {
    assert (op, id) in s.claims;
    match a {
      case AppendLog(o, _) => assert s.ops[o].id == id ==> (o, id) in s.claims;
      case WriteFinal(o, _) => assert s.ops[o].id == id ==> (o, id) in s.claims;
      case Claim(o) =>
      case _ =>
    }
  }

  lemma {:induction false} LastTaken(s: State, steps: seq<Step>, t: State) returns (mid: State)
    requires steps != [] && RunsTo(s, steps, t)
    ensures RunsTo(s, steps[..|steps| - 1], mid) && Enabled(mid, steps[|steps| - 1])
    ensures t == After(mid, steps[|steps| - 1])
    decreases |steps|
  {
    hide Enabled, After;
    if |steps| == 1 {
      mid := s;
    } else {
      mid := LastTaken(After(s, steps[0]), steps[1..], t);
      assert steps[1..][..|steps| - 2] == steps[..|steps| - 1][1..];
    }
  }

  /** As long as an operator writes only log lines, it stays at its work, and the row grows by these lines. */
  lemma {:induction false} LogSoFar(s: State, steps: seq<Step>, t: State, op: int, id: Id)
    requires Inv(s) && OpAt(s, op) == Working(id) && RunsTo(s, steps, t) && Logged([], Own(steps, op))
    ensures OpAt(t, op) == Working(id)
    ensures id in t.rows ==>
              id in s.rows && t.rows[id] == s.rows[id].(log := s.rows[id].log + Texts(Own(steps, op)))
    decreases |steps|
  {
    hide Inv, RunsTo, Enabled, After, Own, Texts;
    if steps == [] {
      NothingRun(s, t, op);
    } else {
      var init, a := steps[..|steps| - 1], steps[|steps| - 1];
      assert steps == init + [a];
      var mid := LastTaken(s, steps, t);
      OwnSnoc(init, a, op);
      assert Logged([], Own(init, op)) by { LoggedInit(Own(init, op), Own(steps, op)); }
      LogSoFar(s, init, mid, op, id);
      RunKeepsInv(s, init, mid);
      if By(a, op) {
        assert a.AppendLog? by { assert Own(steps, op)[|Own(init, op)|] == a; }
        TextsSnoc(Own(init, op), a);
        OwnLog(mid, a, op, id);
      } else {
        assert Own(steps, op) == Own(init, op);
        OthersKeep(mid, a, op);
        RowUntouched(mid, a, op, id);
      }
    }
  }

  lemma NothingRun(s: State, t: State, op: int)
    requires RunsTo(s, [], t)
    ensures s == t && Texts(Own([], op)) == ""
  {
  }

  lemma LoggedInit(a: seq<Step>, b: seq<Step>)
    requires a <= b && Logged([], b)
    ensures Logged([], a)
  {
    assert forall i :: 0 <= i < |a| ==> a[i] == b[i];
  }

  lemma OwnLog(s: State, a: Step, op: int, id: Id)
    requires Enabled(s, a) && a.AppendLog? && By(a, op) && OpAt(s, op) == Working(id)
    ensures OpAt(After(s, a), op) == Working(id)
    ensures id in After(s, a).rows ==>
              id in s.rows && After(s, a).rows[id] == s.rows[id].(log := s.rows[id].log + a.text)
  {
  }

  /** When the final status is written, the row is that of the claim with this status and with the
      operator's log lines in order, whatever happened in between, unless it was deleted. */
  lemma WorkDone(s: State, steps: seq<Step>, t: State, op: int, id: Id, status: Status)
    requires Reachable(s) && OpAt(s, op) == Working(id) && RunsTo(s, steps, t)
    requires steps != [] && steps[|steps| - 1] == WriteFinal(op, status)
    requires LoggedThenFinal([], Own(steps, op), op, status)
    ensures id in t.rows ==>
              id in s.rows &&
              t.rows[id] == s.rows[id].(status := status, finished := true,
                                        log := s.rows[id].log + Texts(Own(steps, op)))
  {
    hide Inv, RunsTo, Own, Texts, Reachable;
    var init, a := steps[..|steps| - 1], steps[|steps| - 1];
    assert steps == init + [a];
    var mid := LastTaken(s, steps, t);
    ReachableInv(s);
    OwnSnoc(init, a, op);
    assert Own(steps, op)[..|Own(init, op)|] == Own(init, op);
    LogSoFar(s, init, mid, op, id);
    TextsSnoc(Own(init, op), a);
  }

  /** What one cycle adds to the operator's steps: nothing if no deployment is pending; otherwise it polls
      the oldest, tries to claim it, and if nobody was faster takes it to a final status. */
  ghost predicate Cycle(before: seq<Step>, now: seq<Step>, op: int, taken: seq<Id>, claimed: bool, status: Status) {
    if taken == [] then now == before
    else
      var begun := before + [Poll(op, taken[0]), Claim(op)];
      if claimed then LoggedThenFinal(begun, now, op, status) else now == begun
  }

  method PollOldest(sys: System, op: int, others: seq<Step>) returns (taken: seq<Id>)
    requires sys.Valid() && OpAt(sys.Now(), op).Idle?
    modifies sys, sys.store
    ensures sys.Valid() && |taken| <= 1
    ensures OpAt(sys.Now(), op) == if taken == [] then Idle else Polled(taken[0])
    ensures Own(sys.trace, op) == old(Own(sys.trace, op)) + if taken == [] then [] else [Poll(op, taken[0])]
    ensures taken == [] ==> forall id :: id in sys.store.rows ==> !sys.store.rows[id].status.Pending?
  {
    hide Own, RunsTo, OldestPending;
    sys.Others(op, others);
    taken := sys.store.PendingDeployments();
    if taken == [] { return; }
    sys.TakeOwn(op, Poll(op, taken[0]));
  }

  method PollPendingDeployments(sys: System, op: int, outcome: Outcome, others: Schedule)
      returns (taken: seq<Id>, claimed: bool)
    requires sys.Valid() && OpAt(sys.Now(), op).Idle?
    modifies sys, sys.store
    ensures sys.Valid() && OpAt(sys.Now(), op).Idle? && |taken| <= 1
    ensures Cycle(old(Own(sys.trace, op)), Own(sys.trace, op), op, taken, claimed, FinalStatus(outcome))
    ensures taken == [] ==> forall id :: id in sys.store.rows ==> !sys.store.rows[id].status.Pending?
    ensures claimed ==> taken != [] && (op, taken[0]) in sys.claims
    ensures claimed && taken[0] in sys.store.rows ==> sys.store.rows[taken[0]].status == FinalStatus(outcome)
  {
    hide Own, RunsTo, OldestPending, LoggedThenFinal, OpAt;
    claimed := false;
    taken := PollOldest(sys, op, others(-1));
    if taken == [] { return; }
    sys.Others(op, others(0));
    ghost var before := old(Own(sys.trace, op));
    claimed := sys.ClaimPolled(op);
    ghost var begun := Own(sys.trace, op);
    assert begun == before + [Poll(op, taken[0]), Claim(op)];
    if !claimed { return; }
    assert (op, taken[0]) in sys.claims;
    if outcome.NoRecipe? {
      FailDeployment(sys, op, "recipe lookup failed", others, begun);
    } else {
      ExecuteDeployment(sys, op, outcome, others, begun);
    }
  }
}
