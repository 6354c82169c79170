/**
 * The branch callback of the adaptive branching loop (BranchCB.__call__ in
 * dynamic-branching/DQN_batch.py): it computes the node's optimality gap,
 * receives a strategy id from the agent, picks a branching variable or a
 * solver variable-selection mode, asks the solver for two children and
 * appends a decision record.
 */
module Branching {
  import opened Wrappers

  /** The solver's notion of infinity (CPLEX uses 1e20); the variable
      selection starts its running maxima at minus this value. */
  const Infinity: real := 100000000000000000000.0

  /** Reports in the decision-record log are flushed every this many records. */
  const FlushPeriod: nat := 500

  /** The per-variable feasibility classification the solver reports. */
  datatype Feasibility = Feasible | ImpliedFeasible | Infeasible

  function Abs(v: real): (r: real)
    ensures r >= 0.0 && (r == v || r == -v)
  {
    if v < 0.0 then -v else v
  }

  /** Distance of v to the nearest integer: the fractional part, folded
      into [0, 0.5] when it exceeds one half. */
  function FracDist(v: real): (d: real)
    ensures 0.0 <= d <= 0.5
    ensures d <= v - v.Floor as real && d <= (v.Floor + 1) as real - v
    ensures d == v - v.Floor as real || d == (v.Floor + 1) as real - v
  {
    var f := v - v.Floor as real;
    if f > 0.5 then 1.0 - f else f
  }

  predicate IsInfeasible(feas: seq<Feasibility>, i: int)
  {
    0 <= i < |feas| && feas[i] == Infeasible
  }

  /** j is an infeasible index among the first n variables with maximal
      distance to an integer; among equal distances it has maximal |obj|;
      and no later index with the same distance ties it on |obj|. */
  ghost predicate BestAmong(x: seq<real>, feas: seq<Feasibility>, obj: seq<real>, j: int, n: nat)
    requires |feas| == |x| && |obj| == |x| && n <= |x|
  {
    0 <= j < n && feas[j] == Infeasible &&
    (forall i :: 0 <= i < n && feas[i] == Infeasible ==> FracDist(x[i]) <= FracDist(x[j])) &&
    (forall i :: 0 <= i < n && feas[i] == Infeasible && FracDist(x[i]) == FracDist(x[j]) ==>
       Abs(obj[i]) <= Abs(obj[j])) &&
    (forall i :: j < i < n && feas[i] == Infeasible && FracDist(x[i]) == FracDist(x[j]) ==>
       Abs(obj[i]) < Abs(obj[j]))
  }

  ghost predicate IsMostFractional(x: seq<real>, feas: seq<Feasibility>, obj: seq<real>, j: int)
    requires |feas| == |x| && |obj| == |x|
  {
    BestAmong(x, feas, obj, j, |x|)
  }

  /** The most-fractional rule: -1 when no variable is infeasible. */
  method MostFractional(x: seq<real>, feas: seq<Feasibility>, obj: seq<real>) returns (bestj: int)
    requires |feas| == |x| && |obj| == |x|
    ensures -1 <= bestj < |x|
    ensures bestj == -1 <==> forall i :: 0 <= i < |x| ==> feas[i] != Infeasible
    ensures bestj != -1 ==> IsMostFractional(x, feas, obj, bestj)
  {
    var maxobj := -Infinity;
    var maxinf := -Infinity;
    bestj := -1;
    for j := 0 to |x|
      invariant -1 <= bestj < j
      invariant bestj == -1 <==> forall i :: 0 <= i < j ==> feas[i] != Infeasible
      invariant bestj == -1 ==> maxinf == -Infinity && maxobj == -Infinity
      invariant bestj != -1 ==>
        maxinf == FracDist(x[bestj]) && maxobj == Abs(obj[bestj]) && BestAmong(x, feas, obj, bestj, j)
    {
      if feas[j] == Infeasible {
        var xjInf := x[j] - x[j].Floor as real;
        if xjInf > 0.5 {
          xjInf := 1.0 - xjInf;
        }
        if xjInf >= maxinf && (xjInf > maxinf || Abs(obj[j]) >= maxobj) {
          bestj := j;
          maxinf := xjInf;
          maxobj := Abs(obj[j]);
        }
      }
    }
  }

  /** The infeasible indices from lo on, in increasing order. */
  function InfeasibleFrom(feas: seq<Feasibility>, lo: nat): (r: seq<int>)
    requires lo <= |feas|
    ensures forall k :: 0 <= k < |r| ==> lo <= r[k] < |feas| && feas[r[k]] == Infeasible
    ensures forall i :: lo <= i < |feas| && feas[i] == Infeasible ==> i in r
    ensures forall k, l :: 0 <= k < l < |r| ==> r[k] < r[l]
    decreases |feas| - lo
  {
    if lo == |feas| then []
    else if feas[lo] == Infeasible then [lo] + InfeasibleFrom(feas, lo + 1)
    else InfeasibleFrom(feas, lo + 1)
  }

  /** The candidate list of the random rule: every infeasible index, in increasing order. */
  function Candidates(feas: seq<Feasibility>): seq<int>
  {
    InfeasibleFrom(feas, 0)
  }

  /** The random rule. `draw` is the position np.random.choice picks in the
      candidate list; None is the early return on an empty list. */
  function RandomChoice(feas: seq<Feasibility>, draw: nat): (r: Option<int>)
    requires Candidates(feas) != [] ==> draw < |Candidates(feas)|
    ensures r.None? <==> forall i :: 0 <= i < |feas| ==> feas[i] != Infeasible
    ensures r.Some? ==> r.value == Candidates(feas)[draw] && IsInfeasible(feas, r.value)
  {
    var cands := Candidates(feas);
    if |cands| == 0 then None
    else
      var bestj := cands[draw];
      if bestj < 0 then None else Some(bestj)
  }

  /** What a strategy id asks for. */
  datatype Strategy =
    | MostFractionalRule
    | RandomRule
    | SolverMode(mode: int)
    | Unrecognized

  /** The dispatch on the id received from the agent. */
  function StrategyOf(action: int): (s: Strategy)
    ensures s.MostFractionalRule? <==> action == 0
    ensures s.RandomRule? <==> action == 1
    ensures s.SolverMode? <==> (2 <= action <= 6 || action == 99)
    ensures s.SolverMode? ==> -1 <= s.mode <= 4 && (s.mode == 0 <==> action == 99)
  {
    if action == 0 then MostFractionalRule
    else if action == 1 then RandomRule
    else if action == 2 then SolverMode(-1)   // minimum infeasibility
    else if action == 3 then SolverMode(1)    // maximum infeasibility
    else if action == 4 then SolverMode(2)    // pseudo costs
    else if action == 5 then SolverMode(3)    // strong branching
    else if action == 6 then SolverMode(4)    // pseudo reduced costs
    else if action == 99 then SolverMode(0)   // automatic
    else Unrecognized
  }

  /** The solver's variable-selection parameter after dispatching on `action`. */
  function NextMode(action: int, mode: int): (m: int)
    ensures !(2 <= action <= 6 || action == 99) ==> m == mode
  {
    match StrategyOf(action)
    case SolverMode(v) => v
    case _ => mode
  }

  lemma ModeTable(mode: int)
    ensures NextMode(2, mode) == -1 && NextMode(3, mode) == 1 && NextMode(4, mode) == 2
    ensures NextMode(5, mode) == 3 && NextMode(6, mode) == 4 && NextMode(99, mode) == 0
    ensures NextMode(0, mode) == mode && NextMode(1, mode) == mode && NextMode(7, mode) == mode
  {
  }

  function IsVariableStrategy(s: Strategy): bool
  {
    s.MostFractionalRule? || s.RandomRule?
  }

  /** "U" and "L" bound types of the solver's branching call. */
  datatype BoundKind = Upper | Lower
  datatype BoundChange = BoundChange(variable: nat, kind: BoundKind, value: int)
  datatype Direction = Down | Up
  /** The node data attached to a child. */
  datatype NodeData =
    | VariableData(variable: nat, parent: int, base: int, direction: Direction)
    | ParentData(parent: int)
  /** One call to make_branch: the child's objective estimate, its bound
      changes and its node data. */
  datatype ChildRequest = ChildRequest(estimate: real, bounds: seq<BoundChange>, data: NodeData)

  /** The two children requested for a strategy at a node with relaxed
      objective objval. */
  function Children(s: Strategy, bestj: int, x: seq<real>, objval: real, nodeId: int): (r: (ChildRequest, ChildRequest))
    requires IsVariableStrategy(s) ==> 0 <= bestj < |x|
    ensures r.0.estimate == objval && r.1.estimate == objval
    ensures r.0.data.parent == nodeId && r.1.data.parent == nodeId
    ensures IsVariableStrategy(s) ==> |r.0.bounds| == 1 && |r.1.bounds| == 1
    ensures !IsVariableStrategy(s) ==> r.0.bounds == [] && r.1.bounds == []
  {
    if IsVariableStrategy(s) then
      var lo := x[bestj].Floor;
      (ChildRequest(objval, [BoundChange(bestj, Upper, lo)], VariableData(bestj, nodeId, lo, Down)),
       ChildRequest(objval, [BoundChange(bestj, Lower, lo + 1)], VariableData(bestj, nodeId, lo, Up)))
    else
      (ChildRequest(objval, [], ParentData(nodeId)), ChildRequest(objval, [], ParentData(nodeId)))
  }

  predicate Satisfies(b: BoundChange, v: real)
  {
    match b.kind
    case Upper => v <= b.value as real
    case Lower => v >= b.value as real
  }

  /** Whether a value v of variable j is allowed in a child. */
  predicate Admits(c: ChildRequest, j: nat, v: real)
  {
    forall k :: 0 <= k < |c.bounds| && c.bounds[k].variable == j ==> Satisfies(c.bounds[k], v)
  }

  /** Whether the integer value v of variable j is allowed in a child. */
  predicate AdmitsInteger(c: ChildRequest, j: nat, v: int)
  {
    Admits(c, j, v as real)
  }

  /** A variable split bounds the chosen variable in both children, at
      consecutive integers floor(x_j) and floor(x_j) + 1: every integer value
      lies in exactly one child, and a fractional x_j in neither. A mode split
      leaves every value in both. */
  lemma {:induction false} ChildrenPartition(s: Strategy, bestj: int, x: seq<real>, objval: real, nodeId: int)
    requires IsVariableStrategy(s) ==> 0 <= bestj < |x|
    ensures IsVariableStrategy(s) ==>
      var r := Children(s, bestj, x, objval, nodeId);
      r.0.bounds[0] == BoundChange(bestj, Upper, x[bestj].Floor) &&
      r.1.bounds[0] == BoundChange(bestj, Lower, x[bestj].Floor + 1) &&
      (forall v: int :: AdmitsInteger(r.0, bestj, v) != AdmitsInteger(r.1, bestj, v)) &&
      (x[bestj] != x[bestj].Floor as real ==> !Admits(r.0, bestj, x[bestj]) && !Admits(r.1, bestj, x[bestj]))
    ensures !IsVariableStrategy(s) ==>
      var r := Children(s, bestj, x, objval, nodeId);
      forall j: nat, v: real :: Admits(r.0, j, v) && Admits(r.1, j, v)
  {
    if IsVariableStrategy(s) {
      var r := Children(s, bestj, x, objval, nodeId);
      var lo := x[bestj].Floor;
      assert r.0.bounds == [BoundChange(bestj, Upper, lo)];
      assert r.1.bounds == [BoundChange(bestj, Lower, lo + 1)];
      forall v: int
        ensures AdmitsInteger(r.0, bestj, v) != AdmitsInteger(r.1, bestj, v)
      {
        assert AdmitsInteger(r.0, bestj, v) <==> Satisfies(r.0.bounds[0], v as real);
        assert AdmitsInteger(r.1, bestj, v) <==> Satisfies(r.1.bounds[0], v as real);
      }
      if x[bestj] != lo as real {
        assert !Satisfies(r.0.bounds[0], x[bestj]);
        assert !Satisfies(r.1.bounds[0], x[bestj]);
      }
    }
  }

  /** The normalized optimality gap of a node. */
  function Gap(objval: real, incumbent: real): (g: real)
    requires incumbent != 0.0
    ensures g * incumbent == objval - incumbent
  {
    (objval - incumbent) / incumbent
  }

  /** What the solver exposes about the node being branched. */
  datatype NodeState = NodeState(
    x: seq<real>, feas: seq<Feasibility>, obj: seq<real>,
    objval: real, bestObjval: real, nodeId: int, incumbent: real, cutoff: real)

  /** One entry of the decision-record log. */
  datatype DecisionRecord = DecisionRecord(
    nodeId: int, down: int, up: int, bestObjval: real, objval: real,
    incumbent: real, cutoff: real, gap: real)

  /** How a callback invocation ends: an early return, or a branch on
      variable `bestj` (-1 for a mode split) with the two child requests. */
  datatype CallOutcome =
    | ReturnedEarly
    | Branched(bestj: int, down: ChildRequest, up: ChildRequest, flush: bool)

  predicate WellFormed(node: NodeState)
  {
    |node.feas| == |node.x| && |node.obj| == |node.x| && node.incumbent != 0.0
  }

  /** The solver session, holding the variable-selection parameter that the
      mode strategies set (0 is the solver's automatic choice). */
  class Solver {
    var variableSelect: int

    constructor ()
      ensures variableSelect == 0
    {
      variableSelect := 0;
    }
  }

  class BranchCallback {
    var nodesToProcess: seq<DecisionRecord>
    var timesCalled: nat
    var reportCount: nat
    var branchesCount: nat
    const solver: Solver

    /** `init`: attach the shared log and zero the counters. */
    constructor (solver: Solver, log: seq<DecisionRecord>)
      ensures this.solver == solver && nodesToProcess == log
      ensures timesCalled == 0 && reportCount == 0 && branchesCount == 0
    {
      this.solver := solver;
      nodesToProcess := log;
      timesCalled := 0;
      reportCount := 0;
      branchesCount := 0;
    }

    /** One branching decision. `action` is the strategy id the agent sends
        back, `draw` the random rule's pick, and `downHandle`/`upHandle` the
        handles the solver gives the two children. */
    method Call(node: NodeState, action: int, draw: nat, downHandle: int, upHandle: int)
      returns (outcome: CallOutcome)
      requires WellFormed(node)
      requires action == 0 ==> exists i :: 0 <= i < |node.x| && node.feas[i] == Infeasible
      requires action == 1 && Candidates(node.feas) != [] ==> draw < |Candidates(node.feas)|
      modifies this, solver
      ensures timesCalled == old(timesCalled) + 1 && branchesCount == old(branchesCount)
      ensures solver.variableSelect == NextMode(action, old(solver.variableSelect))
      ensures outcome.ReturnedEarly? <==>
        action == 1 && forall i :: 0 <= i < |node.x| ==> node.feas[i] != Infeasible
      ensures outcome.ReturnedEarly? ==>
        nodesToProcess == old(nodesToProcess) && reportCount == old(reportCount)
      ensures outcome.Branched? ==>
        (action == 0 ==> IsMostFractional(node.x, node.feas, node.obj, outcome.bestj)) &&
        (action == 1 ==> outcome.bestj == Candidates(node.feas)[draw]) &&
        (action != 0 && action != 1 ==> outcome.bestj == -1) &&
        (outcome.down, outcome.up) == Children(StrategyOf(action), outcome.bestj, node.x, node.objval, node.nodeId) &&
        nodesToProcess == old(nodesToProcess) + [DecisionRecord(node.nodeId, downHandle, upHandle,
          node.bestObjval, node.objval, node.incumbent, node.cutoff, Gap(node.objval, node.incumbent))] &&
        reportCount == old(reportCount) + 1 &&
        outcome.flush == (reportCount % FlushPeriod == 0)
    {
      timesCalled := timesCalled + 1;
      var gap := Gap(node.objval, node.incumbent);
      var bestj := -1;
      var strategy := StrategyOf(action);
      match strategy {
        case MostFractionalRule =>
          bestj := MostFractional(node.x, node.feas, node.obj);
        case RandomRule =>
          var choice := RandomChoice(node.feas, draw);
          if choice.None? {
            return ReturnedEarly;
          }
          bestj := choice.value;
        case SolverMode(m) =>
          solver.variableSelect := m;
        case Unrecognized =>
      }
      var children := Children(strategy, bestj, node.x, node.objval, node.nodeId);
      nodesToProcess := nodesToProcess + [DecisionRecord(node.nodeId, downHandle, upHandle,
        node.bestObjval, node.objval, node.incumbent, node.cutoff, gap)];
      reportCount := reportCount + 1;
      outcome := Branched(bestj, children.0, children.1, reportCount % FlushPeriod == 0);
    }
  }

  /** The most-fractional example: x = [0.5, 0.9, 0.1], all infeasible,
      objective coefficients [1, 5, 2] selects variable 0. */
  method MostFractionalExample() returns (j: int)
    ensures j == 0
  {
    var x := [0.5, 0.9, 0.1];
    var feas := [Infeasible, Infeasible, Infeasible];
    var obj := [1.0, 5.0, 2.0];
    j := MostFractional(x, feas, obj);
    assert feas[0] == Infeasible;
    assert x[0].Floor == 0 && x[1].Floor == 0 && x[2].Floor == 0;
    assert FracDist(x[0]) == 0.5;
    assert FracDist(x[1]) < 0.5 && FracDist(x[2]) < 0.5;
  }
}
