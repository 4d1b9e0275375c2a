/** Any number of clients and one operator working on the same bot_state row.
    Every client keeps whatever states it ever loaded or got back from a write,
    and may base a write on any of them (bot_state/state_manager.py,
    bot_state/state_repo.py, cli.py). */
module SharedRow {
  import opened Wrappers
  import opened BotStateModel

  // `history` lists the rows ever stored, oldest first; `held` the states in
  // clients' hands; `armed` says that the operator has seen STOP_CRANE and has
  // not reset the row yet.
  datatype World = World(row: BotState, history: seq<BotState>, held: set<(nat, BotState)>, armed: bool)

  datatype Action =
    | Load(client: nat)
    | CommitBy(client: nat, base: BotState, next: BotState)
    | TransitionBy(client: nat, base: BotState, to: CycleStatus, updated: BotState, reasonGiven: bool)
    | UpdateBy(client: nat, base: BotState, updated: BotState)
    | OperatorCheck
    | OperatorReset

  function Start(virtualBalance: real): (next: World) {
    World(InitialState(virtualBalance), [InitialState(virtualBalance)], {}, false)
  }

  predicate IsWrite(a: Action) { a.CommitBy? || a.TransitionBy? || a.UpdateBy? }

  function Attempt(row: BotState, a: Action): (w: Write)
    requires IsWrite(a)
  {
    match a
    case CommitBy(_, s, n) => Commit(row, s, n)
    case TransitionBy(_, s, to, u, g) => Transition(row, s, to, u, g)
    case UpdateBy(_, s, u) => Update(row, s, u)
  }

  // The CLI's unversioned UPDATE.
  function Reset(row: BotState): (next: BotState) {
    row.(status := Idle, cycleId := None, activeEntryId := None, activeTpId := None,
         activeDcaIds := [], closingReason := None, version := row.version + 1)
  }

  function Step(w: World, a: Action): (next: World) {
    match a
    case Load(c) => w.(held := w.held + {(c, w.row)})
    case OperatorCheck => w.(armed := w.row.status == StopCrane)
    case OperatorReset =>
      if w.armed then World(Reset(w.row), w.history + [Reset(w.row)], w.held, false) else w
    case _ =>
      var r := Attempt(w.row, a);
      match r.result
      case Ok(s) => World(r.row, w.history + [r.row], w.held + {(a.client, s)}, w.armed)
      case Err(_) => w.(row := r.row)
  }

  // A client writes only from a state it holds, and hands commit() a state made
  // by replace() or by one with_updates().
  predicate Disciplined(w: World, a: Action) {
    && (IsWrite(a) ==> (a.client, a.base) in w.held)
    && (a.CommitBy? ==> a.next.version <= a.base.version + 1)
  }

  function Run(w: World, actions: seq<Action>): (next: World) {
    if actions == [] then w else Step(Run(w, actions[..|actions| - 1]), actions[|actions| - 1])
  }

  predicate AllDisciplined(w: World, actions: seq<Action>) {
    actions == [] ||
    (AllDisciplined(w, actions[..|actions| - 1]) &&
     Disciplined(Run(w, actions[..|actions| - 1]), actions[|actions| - 1]))
  }

  // Two consecutive rows: a legal status step, or the operator's reset.
  ghost predicate LegalPair(a: BotState, b: BotState) {
    LegalStep(a.status, b.status) || (a.status == StopCrane && b == Reset(a))
  }

  ghost predicate Consistent(w: World) {
    && |w.history| > 0 && w.row == w.history[|w.history| - 1]
    && (forall i :: 0 <= i < |w.history| ==> w.history[i].version == i)
    && (forall i :: 0 < i < |w.history| ==> LegalPair(w.history[i - 1], w.history[i]))
    && (forall h :: h in w.held ==> 0 <= h.1.version < |w.history| && w.history[h.1.version] == h.1)
    && (w.armed ==> w.row.status == StopCrane)
  }

  // A successful write from a held state replaced exactly that state.
  lemma WriteReplacesItsBase(w: World, a: Action)
    requires Consistent(w) && IsWrite(a) && Disciplined(w, a)
    requires Attempt(w.row, a).result.Ok?
    ensures a.base == w.row
    ensures var r := Attempt(w.row, a);
      && r.result == Ok(r.row) && r.row.version == w.row.version + 1
      && LegalStep(w.row.status, r.row.status)
  {
    var h := (a.client, a.base);
    assert h in w.held && h.1 == a.base;
  }

  lemma StepKeepsConsistent(w: World, a: Action)
    requires Consistent(w) && Disciplined(w, a)
    ensures Consistent(Step(w, a)) && w.history <= Step(w, a).history && w.held <= Step(w, a).held
  {
    if IsWrite(a) {
      if Attempt(w.row, a).result.Ok? {
        WriteReplacesItsBase(w, a);
        StoringKeeps(w, a, Attempt(w.row, a).row);
      } else {
        assert Step(w, a) == w.(row := Attempt(w.row, a).row);
      }
    } else if a == OperatorReset && w.armed {
      RowsGrow(w, Reset(w.row));
    }
  }

  // Appending a row that follows the last one.
  lemma RowsGrow(w: World, next: BotState)
    requires Consistent(w) && next.version == w.row.version + 1 && LegalPair(w.row, next)
    ensures Consistent(World(next, w.history + [next], w.held, false))
  {
    var h := w.history + [next];
    forall i | 0 < i < |h| ensures LegalPair(h[i - 1], h[i]) {
      if i < |w.history| {
        assert h[i - 1] == w.history[i - 1] && h[i] == w.history[i];
      }
    }
  }

  lemma StoringKeeps(w: World, a: Action, next: BotState)
    requires Consistent(w) && IsWrite(a) && Attempt(w.row, a) == Write(next, Ok(next))
    requires next.version == w.row.version + 1 && LegalStep(w.row.status, next.status)
    ensures Consistent(Step(w, a)) && w.history <= Step(w, a).history && w.held <= Step(w, a).held
  {
    RowsGrow(w, next);
    assert Step(w, a) == World(next, w.history + [next], w.held + {(a.client, next)}, w.armed);
  }

  // Over every interleaving: versions count the writes, the row is the last of
  // them, every held state is a row that once was, and every consecutive pair
  // of rows is a legal status step or an operator reset out of STOP_CRANE.
  lemma {:induction false} HistoryIsLinear(balance: real, actions: seq<Action>)
    requires AllDisciplined(Start(balance), actions)
    ensures Consistent(Run(Start(balance), actions))
  {
    if actions != [] {
      HistoryIsLinear(balance, actions[..|actions| - 1]);
      StepKeepsConsistent(Run(Start(balance), actions[..|actions| - 1]), actions[|actions| - 1]);
    }
  }

  // No lost update: in every interleaving a write succeeds only on the row its
  // author started from, and then adds exactly one version.
  lemma NoLostUpdates(balance: real, actions: seq<Action>, a: Action)
    requires AllDisciplined(Start(balance), actions)
    requires var w := Run(Start(balance), actions); IsWrite(a) && Disciplined(w, a)
    ensures var w := Run(Start(balance), actions);
      var r := Attempt(w.row, a);
      && (r.result.Ok? ==> w.row == a.base && Step(w, a).history == w.history + [r.row] && r.row.version == |w.history|)
      && (r.result.Err? ==> Step(w, a) == w)
  {
    HistoryIsLinear(balance, actions);
    var w := Run(Start(balance), actions);
    if Attempt(w.row, a).result.Ok? {
      WriteReplacesItsBase(w, a);
    }
  }

  // The version arithmetic of commit() protects a held base exactly when the
  // new state is at most one version ahead of it: a successful commit that runs
  // further ahead always overwrites a row its author never saw.
  lemma CommitProtectsBaseIff(balance: real, actions: seq<Action>, c: nat, base: BotState, next: BotState)
    requires AllDisciplined(Start(balance), actions)
    requires (c, base) in Run(Start(balance), actions).held
    requires Commit(Run(Start(balance), actions).row, base, next).result.Ok?
    ensures Run(Start(balance), actions).row == base <==> next.version <= base.version + 1
  {
    HistoryIsLinear(balance, actions);
    var w := Run(Start(balance), actions);
    var h := (c, base);
    assert h in w.held && h.1 == base;
  }

  // A two-versions-ahead commit does overwrite another client's write.
  lemma SkippingAheadLosesAnUpdate(balance: real)
    requires balance >= 0.0
    ensures var s0 := InitialState(balance);
      var w := Run(Start(balance), [Load(0), UpdateBy(0, s0, s0.(dcaCount := 7))]);
      && (0, s0) in w.held && w.row.dcaCount == 7
      && Commit(w.row, s0, s0.(version := 2)).row.dcaCount == 0
  {
    var s0 := InitialState(balance);
    var actions := [Load(0), UpdateBy(0, s0, s0.(dcaCount := 7))];
    assert actions[..1] == [Load(0)];
    assert [Load(0)][..0] == [];
    var w1 := Run(Start(balance), [Load(0)]);
    assert w1 == Step(Run(Start(balance), []), Load(0));
    assert Run(Start(balance), actions) == Step(w1, actions[1]);
  }

  // ------------------------------------------------------------ STOP_CRANE

  predicate ManagerOnly(actions: seq<Action>) {
    forall a :: a in actions ==> !a.OperatorReset?
  }

  lemma {:induction false} RunSplits(w: World, a: seq<Action>, b: seq<Action>)
    ensures Run(w, a + b) == Run(Run(w, a), b)
    ensures AllDisciplined(w, a + b) <==> AllDisciplined(w, a) && AllDisciplined(Run(w, a), b)
  {
    if b == [] {
      assert a + b == a;
    } else {
      assert (a + b)[..|a + b| - 1] == a + b[..|b| - 1];
      RunSplits(w, a, b[..|b| - 1]);
    }
  }

  // STOP_CRANE absorbs every write of every client; only the operator leaves it.
  lemma {:induction false} StopCraneAbsorbs(w: World, actions: seq<Action>)
    requires Consistent(w) && w.row.status == StopCrane
    requires AllDisciplined(w, actions) && ManagerOnly(actions)
    ensures Consistent(Run(w, actions)) && Run(w, actions).row.status == StopCrane
  {
    if actions != [] {
      var front, a := actions[..|actions| - 1], actions[|actions| - 1];
      assert a in actions;
      StopCraneAbsorbs(w, front);
      var w1 := Run(w, front);
      StepKeepsConsistent(w1, a);
      if IsWrite(a) && Attempt(w1.row, a).result.Ok? {
        WriteReplacesItsBase(w1, a);
      }
    }
  }

  // The operator's reset always acts on a STOP_CRANE row, although its UPDATE
  // carries no version; and in every continuation a write based on a state that
  // was in anyone's hands before the reset is rejected.
  lemma OperatorResetIsSafe(balance: real, before: seq<Action>, after: seq<Action>, a: Action)
    requires AllDisciplined(Start(balance), before + [OperatorReset] + after)
    requires Run(Start(balance), before).armed
    requires IsWrite(a) && (a.client, a.base) in Run(Start(balance), before).held
    requires a.CommitBy? ==> a.next.version <= a.base.version + 1
    ensures var w := Run(Start(balance), before);
      var w' := Run(Start(balance), before + [OperatorReset] + after);
      && w.row.status == StopCrane && Step(w, OperatorReset).row.status == Idle
      && Attempt(w'.row, a).result.Err? && Attempt(w'.row, a).row == w'.row
  {
    var w := Run(Start(balance), before);
    RunSplits(Start(balance), before + [OperatorReset], after);
    RunSplits(Start(balance), before, [OperatorReset]);
    HistoryIsLinear(balance, before);
    assert [OperatorReset][..0] == [];
    assert Run(w, [OperatorReset]) == Step(Run(w, []), OperatorReset);
    StepKeepsConsistent(w, OperatorReset);
    Continues(Step(w, OperatorReset), after);
    OldBaseIsRejected(w, Run(Step(w, OperatorReset), after), a);
  }

  // A state held before the row moved on is too old to write from.
  lemma OldBaseIsRejected(w: World, later: World, a: Action)
    requires Consistent(w) && Consistent(later) && |w.history| < |later.history|
    requires IsWrite(a) && (a.client, a.base) in w.held
    requires a.CommitBy? ==> a.next.version <= a.base.version + 1
    ensures Attempt(later.row, a).result.Err? && Attempt(later.row, a).row == later.row
  {
    var h := (a.client, a.base);
    assert h in w.held && h.1 == a.base;
    assert a.base.version < later.row.version;
  }

  lemma {:induction false} Continues(w: World, actions: seq<Action>)
    requires Consistent(w) && AllDisciplined(w, actions)
    ensures Consistent(Run(w, actions)) && w.history <= Run(w, actions).history
  {
    if actions != [] {
      Continues(w, actions[..|actions| - 1]);
      StepKeepsConsistent(Run(w, actions[..|actions| - 1]), actions[|actions| - 1]);
    }
  }

  // ------------------------------------------------------------ what the rows say

  // The documented order of a cycle, and STOP_CRANE from anywhere.
  predicate NextStatus(a: CycleStatus, b: CycleStatus) {
    || b == a || b == StopCrane
    || (a == Idle && b == Entering)
    || (a == Entering && b in {InPosition, Idle, WaitingForLiquidity})
    || (a == InPosition && b in {Closing, WaitingForLiquidity})
    || (a == WaitingForLiquidity && b in {InPosition, Closing})
    || (a == Closing && b == Idle)
  }

  // The reset keeps position, quotes and balances, and forgets the cycle's ids.
  predicate IsReset(a: BotState, b: BotState) {
    a.status == StopCrane &&
    b == a.(status := Idle, cycleId := None, activeEntryId := None, activeTpId := None, activeDcaIds := [],
            closingReason := None, version := a.version + 1)
  }

  predicate NoneNegative(s: BotState) { s.positionQty >= 0.0 && s.virtualFree >= 0.0 && s.virtualLocked >= 0.0 }

  ghost predicate HistoryOk(history: seq<BotState>) {
    && (forall i :: 0 <= i < |history| ==> NoneNegative(history[i]))
    && (forall i :: 0 < i < |history| ==>
          NextStatus(history[i - 1].status, history[i].status) || IsReset(history[i - 1], history[i]))
  }

  // Over every interleaving: no row ever holds a negative quantity or balance, and
  // statuses follow one another in the documented order.
  lemma {:induction false} RowsAreInOrder(balance: real, actions: seq<Action>)
    requires balance >= 0.0 && AllDisciplined(Start(balance), actions)
    ensures HistoryOk(Run(Start(balance), actions).history)
  {
    if actions != [] {
      var front, a := actions[..|actions| - 1], actions[|actions| - 1];
      RowsAreInOrder(balance, front);
      HistoryIsLinear(balance, front);
      HistoryStaysOk(Run(Start(balance), front), a);
    }
  }

  lemma HistoryStaysOk(w: World, a: Action)
    requires Consistent(w) && Disciplined(w, a) && HistoryOk(w.history)
    ensures HistoryOk(Step(w, a).history)
  {
    if IsWrite(a) && Attempt(w.row, a).result.Ok? {
      WriteReplacesItsBase(w, a);
      OneRowMore(w.history, Attempt(w.row, a).row);
    } else if a == OperatorReset && w.armed {
      OneRowMore(w.history, Reset(w.row));
    }
  }

  lemma OneRowMore(history: seq<BotState>, next: BotState)
    requires history != [] && HistoryOk(history) && NoneNegative(next)
    requires NextStatus(history[|history| - 1].status, next.status) || IsReset(history[|history| - 1], next)
    ensures HistoryOk(history + [next])
  {
    var h := history + [next];
    forall i | 0 < i < |h| ensures NextStatus(h[i - 1].status, h[i].status) || IsReset(h[i - 1], h[i]) {
      if i < |history| {
        assert h[i - 1] == history[i - 1] && h[i] == history[i];
      }
    }
  }

  // A write from the current row is refused for no other reason: not when the step
  // is in order and nothing is negative.
  lemma AcceptedIff(w: World, c: nat, next: BotState)
    requires Consistent(w) && (c, w.row) in w.held && w.row.version <= next.version <= w.row.version + 1
    ensures Attempt(w.row, CommitBy(c, w.row, next)).result.Ok? <==>
      NextStatus(w.row.status, next.status) && NoneNegative(next)
  {}
}
