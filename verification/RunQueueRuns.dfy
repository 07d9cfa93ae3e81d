/**
 What holds over whole runs of the worker: every sequence of moves from a fresh worker, with the
 console, the terminals and the clock acting in between and any read or write failing.
 */
module RunQueueRuns {
  import opened Options
  import opened RunQueueWorld
  import opened RunQueueProtocol
  import opened Numbers
  import UsageCeiling

  /** `moves[k]` leads from `path[k]` to `path[k + 1]`. */
  ghost predicate IsPath(path: seq<State>, moves: seq<Move>) {
    && |path| == |moves| + 1
    && forall k {:trigger StepAt(path, moves, k)} :: 0 <= k < |moves| ==> StepAt(path, moves, k)
  }

  ghost predicate StepAt(path: seq<State>, moves: seq<Move>, k: int)
    requires |path| == |moves| + 1 && 0 <= k < |moves|
  {
    Next(path[k], moves[k], path[k + 1])
  }

  ghost predicate Next(s: State, m: Move, s': State) {
    Enabled(s, m) && s' == After(s, m)
  }

  ghost predicate IsRun(run: seq<State>, moves: seq<Move>) {
    IsPath(run, moves) && Initial(run[0])
  }

  ghost predicate Reachable(s: State) {
    exists run, moves :: IsRun(run, moves) && run[|moves|] == s
  }

  /** Some moves lead from `s` to `s'`. */
  ghost predicate Leads(s: State, s': State) {
    exists path, moves :: IsPath(path, moves) && path[0] == s && path[|moves|] == s'
  }

  lemma LeadsToItself(s: State)
    ensures Leads(s, s)
  {
    var none: seq<Move> := [];
    assert IsPath([s], none) && [s][|none|] == s;
  }

  lemma OneStepMore(path: seq<State>, moves: seq<Move>, m: Move, c: State)
    requires IsPath(path, moves) && Next(path[|moves|], m, c)
    ensures IsPath(path + [c], moves + [m])
  {
    var path', moves' := path + [c], moves + [m];
    forall k | 0 <= k < |moves'| ensures StepAt(path', moves', k) {
      if k < |moves| {
        assert StepAt(path, moves, k);
      }
    }
  }

  lemma LeadsByOne(a: State, b: State, m: Move, c: State)
    requires Leads(a, b) && Next(b, m, c)
    ensures Leads(a, c)
  {
    var path, moves :| IsPath(path, moves) && path[0] == a && path[|moves|] == b;
    var path', moves' := path + [c], moves + [m];
    OneStepMore(path, moves, m, c);
    assert path'[0] == a && path'[|moves'|] == c;
  }

  lemma LeadsByOneAt(a: State, path: seq<State>, moves: seq<Move>, k: nat)
    requires IsPath(path, moves) && k < |moves| && Leads(a, path[k])
    ensures Leads(a, path[k + 1])
  {
    assert StepAt(path, moves, k);
    LeadsByOne(a, path[k], moves[k], path[k + 1]);
  }

  lemma {:induction false} LeadsAlong(a: State, path: seq<State>, moves: seq<Move>, k: nat)
    requires IsPath(path, moves) && Leads(a, path[0]) && k < |path|
    ensures Leads(a, path[k])
  {
    if k > 0 {
      LeadsAlong(a, path, moves, k - 1);
      LeadsByOneAt(a, path, moves, k - 1);
    }
  }

  lemma LeadsOn(a: State, b: State, c: State)
    requires Leads(a, b) && Leads(b, c)
    ensures Leads(a, c) && a.world.faults <= b.world.faults <= c.world.faults
  {
    var path, moves :| IsPath(path, moves) && path[0] == b && path[|moves|] == c;
    LeadsAlong(a, path, moves, |moves|);
    FaultsAddUp(a, b);
    FaultsAddUp(b, c);
  }

  lemma FaultsAddUp(a: State, b: State)
    requires Leads(a, b)
    ensures a.world.faults <= b.world.faults
  {
    var path, moves :| IsPath(path, moves) && path[0] == a && path[|moves|] == b;
    FaultsAddUpAlong(path, moves, |moves|);
  }

  lemma {:induction false} FaultsAddUpAlong(path: seq<State>, moves: seq<Move>, k: nat)
    requires IsPath(path, moves) && k < |path|
    ensures path[0].world.faults <= path[k].world.faults
  {
    if k > 0 {
      FaultsAddUpAlong(path, moves, k - 1);
      NoFaultIsForgotten(path, moves, k - 1);
    }
  }

  lemma NoFaultIsForgotten(path: seq<State>, moves: seq<Move>, k: nat)
    requires IsPath(path, moves) && k < |moves|
    ensures path[k].world.faults <= path[k + 1].world.faults
  {
    assert StepAt(path, moves, k);
  }

  lemma InitialIsReachable(s: State)
    requires Initial(s)
    ensures Reachable(s)
  {
    var none: seq<Move> := [];
    assert IsRun([s], none) && [s][|none|] == s;
  }

  lemma NextIsReachable(s: State, m: Move)
    requires Reachable(s) && Enabled(s, m)
    ensures Reachable(After(s, m)) && Invariant(After(s, m)) && Leads(s, After(s, m))
  {
    var run, moves :| IsRun(run, moves) && run[|moves|] == s;
    var run', moves' := run + [After(s, m)], moves + [m];
    OneStepMore(run, moves, m, After(s, m));
    assert IsRun(run', moves') && run'[|moves'|] == After(s, m);
    ReachableInvariant(After(s, m));
    MoveLeads(s, m);
  }

  lemma MoveLeads(s: State, m: Move)
    requires Enabled(s, m)
    ensures Leads(s, After(s, m))
  {
    var path, moves := [s, After(s, m)], [m];
    assert StepAt(path, moves, 0);
    assert IsPath(path, moves) && path[|moves|] == After(s, m);
  }

  lemma {:induction false} PathKeepsInvariant(path: seq<State>, moves: seq<Move>, k: nat)
    requires IsPath(path, moves) && Invariant(path[0]) && k < |path|
    ensures Invariant(path[k])
  {
    if k > 0 {
      PathKeepsInvariant(path, moves, k - 1);
      assert StepAt(path, moves, k - 1);
      MoveKeepsInvariant(path[k - 1], moves[k - 1]);
    }
  }

  /** The invariant holds at every point of every run. */
  lemma RunKeepsInvariant(run: seq<State>, moves: seq<Move>, k: nat)
    requires IsRun(run, moves) && k < |run|
    ensures Invariant(run[k])
  {
    InitialInvariant(run[0]);
    PathKeepsInvariant(run, moves, k);
  }

  lemma ReachableInvariant(s: State)
    requires Reachable(s)
    ensures Invariant(s)
  {
    var run, moves :| IsRun(run, moves) && run[|moves|] == s;
    RunKeepsInvariant(run, moves, |moves|);
  }

  // ------------------------------------------------------------------ what no move undoes

  ghost predicate HasOpen(active: seq<Active>, t: Id) {
    exists k :: 0 <= k < |active| && active[k].terminal == t && !active[k].closing
  }

  /** No generation given up comes back. */
  ghost predicate GenerationsStay(s: State, s': State) {
    s.generation <= s'.generation && forall g: nat :: g <= s.generation && !Holds(s.active, g) ==> !Holds(s'.active, g)
  }

  /** What is closed or lost stays so, and no session opens again in a terminal that had none open. */
  ghost predicate TerminalsStay(s: State, s': State) {
    && s.world.issued <= s'.world.issued && s.world.closed <= s'.world.closed && s.world.lost <= s'.world.lost
    && s.world.ended <= s'.world.ended
    && forall t :: t in s.world.issued && !HasOpen(s.active, t) ==> !HasOpen(s'.active, t)
  }

  /** An item that is gone stays gone, and with the writes intact one that is settled stays as it was settled. */
  ghost predicate ItemsStay(s: State, s': State) {
    && s.world.known <= s'.world.known && s.world.deleted <= s'.world.deleted
    && (s'.world.intact ==> s.world.intact)
    && (forall i :: i in s.world.known && i !in s.world.items ==> i !in s'.world.items)
    && (s'.world.intact ==>
          forall i :: i in s.world.items && s.world.items[i].state.Settled() && i in s'.world.items ==> s'.world.items[i] == s.world.items[i])
  }

  ghost predicate Later(s: State, s': State) {
    GenerationsStay(s, s') && TerminalsStay(s, s') && ItemsStay(s, s')
  }

  lemma GenerationsOnlyGrow(s: State, m: Move)
    requires Enabled(s, m)
    ensures GenerationsStay(s, After(s, m))
  {
  }

  lemma TerminalsOnlyClose(s: State, m: Move)
    requires Core(s) && Enabled(s, m)
    ensures TerminalsStay(s, After(s, m))
  {
    var s' := After(s, m);
    forall t | t in s.world.issued && HasOpen(s'.active, t) ensures HasOpen(s.active, t) {
      var k :| 0 <= k < |s'.active| && s'.active[k].terminal == t && !s'.active[k].closing;
      EntryWas(s, m, k);
    }
  }

  /** Where an entry was before a move, unless the move started it: the same session on the same item. */
  lemma EntryWas(s: State, m: Move, k: nat)
    requires Enabled(s, m) && k < |After(s, m).active| && !(m.Start? && k == |s.active|)
    ensures var was := if m.Drop? && k >= m.at then k + 1 else k;
            && was < |s.active|
            && After(s, m).active[k].item == s.active[was].item && After(s, m).active[k].task == s.active[was].task
            && (if m.Renewed? && k == m.at then After(s, m).active[k].terminal == m.terminal
                else After(s, m).active[k].terminal == s.active[was].terminal
                     && (s.active[was].closing ==> After(s, m).active[k].closing))
  {
  }

  lemma SettledIsNotWritten(s: State, item: Id, outcome: ItemState)
    requires Invariant(s) && s.world.intact && MayWrite(s, item, outcome) && item in s.world.items
    ensures !s.world.items[item].state.Settled()
  {
    if item in ActiveItems(s.active) {
      var k :| 0 <= k < |s.active| && s.active[k].item == item;
      assert Listed(s, s.active[k]);
    }
  }

  lemma ItemsOnlySettle(s: State, m: Move)
    requires Invariant(s) && Enabled(s, m)
    ensures ItemsStay(s, After(s, m))
  {
    if m.Write? && m.ok && s.world.intact && m.item in s.world.items {
      SettledIsNotWritten(s, m.item, m.outcome);
    }
    ItemsAreKnown(s);
    SettledOrWritten(s, m);
  }

  lemma ItemsAreKnown(s: State)
    requires Invariant(s)
    ensures s.world.items.Keys <= s.world.known
  {
  }

  lemma SettledOrWritten(s: State, m: Move)
    requires Enabled(s, m) && s.world.items.Keys <= s.world.known
    requires m.Write? && m.ok && s.world.intact && m.item in s.world.items ==> !s.world.items[m.item].state.Settled()
    ensures ItemsStay(s, After(s, m))
  {
    if !m.Outside? && !m.Write? && !m.Requeued? {
      ItemsUntouched(s, m);
    }
  }

  lemma ItemsUntouched(s: State, m: Move)
    requires Enabled(s, m) && !m.Outside? && !m.Write? && !m.Requeued?
    ensures After(s, m).world.items == s.world.items && After(s, m).world.known == s.world.known
    ensures After(s, m).world.deleted == s.world.deleted && After(s, m).world.intact == s.world.intact
  {
  }

  lemma LaterOn(a: State, b: State, c: State)
    requires SoundWorld(a.world) && Later(a, b) && Later(b, c)
    ensures Later(a, c)
  {
  }

  lemma MoveIsLater(s: State, m: Move)
    requires Invariant(s) && Enabled(s, m)
    ensures Later(s, After(s, m)) && SoundWorld(s.world)
  {
    GenerationsOnlyGrow(s, m);
    TerminalsOnlyClose(s, m);
    ItemsOnlySettle(s, m);
  }

  lemma PathMoveIsLater(path: seq<State>, moves: seq<Move>, k: nat)
    requires IsPath(path, moves) && Invariant(path[0]) && k < |moves|
    ensures Later(path[k], path[k + 1]) && SoundWorld(path[k].world)
  {
    PathKeepsInvariant(path, moves, k);
    assert StepAt(path, moves, k);
    MoveIsLater(path[k], moves[k]);
  }

  lemma {:induction false} PathIsLater(path: seq<State>, moves: seq<Move>, i: nat, j: nat)
    requires IsPath(path, moves) && Invariant(path[0]) && i <= j < |path|
    ensures Later(path[i], path[j])
    decreases j - i
  {
    if i < j {
      PathMoveIsLater(path, moves, i);
      PathIsLater(path, moves, i + 1, j);
      LaterOn(path[i], path[i + 1], path[j]);
    }
  }

  lemma LeadsIsLater(s: State, s': State)
    requires Reachable(s) && Leads(s, s')
    ensures Later(s, s')
  {
    ReachableInvariant(s);
    var path, moves :| IsPath(path, moves) && path[0] == s && path[|moves|] == s';
    PathIsLater(path, moves, 0, |moves|);
  }

  lemma RunIsLater(run: seq<State>, moves: seq<Move>, i: nat, j: nat)
    requires IsRun(run, moves) && i <= j < |run|
    ensures Later(run[i], run[j])
  {
    InitialInvariant(run[0]);
    PathIsLater(run, moves, i, j);
  }

  // ------------------------------------------------------------------ items and sessions

  ghost function RunningItems(w: World): set<Id> {
    set i | i in w.items && w.items[i].state == Running
  }

  /**
   Between two commands, with every write of an item's state having gone through, the items marked
   running are exactly the items of the sessions in hand that are still listed, each once. A
   session's item is listed, with the session's task, unless that task was deleted or the console took the item off.
   */
  lemma RunningItemsAreThoseInHand(s: State)
    requires Reachable(s) && s.hand.Free? && s.world.intact
    ensures RunningItems(s.world) == ActiveItems(s.active) * s.world.items.Keys
    ensures forall j, k :: 0 <= j < k < |s.active| ==> s.active[j].item != s.active[k].item
    ensures forall k {:trigger s.active[k]} :: 0 <= k < |s.active| ==>
              var a := s.active[k];
              && (a.item in s.world.items ==> s.world.items[a.item] == Item(a.task, Running))
              && (a.item in s.world.items <==> a.task !in s.world.deleted && a.item !in s.world.unlisted)
  {
    ReachableInvariant(s);
    forall i | i in ActiveItems(s.active) * s.world.items.Keys ensures i in RunningItems(s.world) {
      var k :| 0 <= k < |s.active| && s.active[k].item == i;
      assert Listed(s, s.active[k]);
    }
    forall k | 0 <= k < |s.active| ensures Listed(s, s.active[k]) {}
  }

  ghost predicate Works(active: seq<Active>, item: Id, task: Id) {
    exists k :: 0 <= k < |active| && active[k].item == item && active[k].task == task
  }

  /** The worker has chosen the item and has not yet marked it running. */
  ghost predicate Launching(s: State, item: Id) {
    (s.hand.Choosing? && s.hand.item == item) || s.hand == Starting(item)
  }

  /** Something outside the worker took the item off at this move, while it was being launched. */
  ghost predicate TakenOffInLaunch(run: seq<State>, moves: seq<Move>, item: Id, i: nat)
    requires |run| == |moves| + 1
  {
    i < |moves| && moves[i].Outside? && Launching(run[i], item) && item in run[i].world.items && item !in run[i + 1].world.items
  }

  lemma OnlyOutsideTakesOff(s: State, m: Move, item: Id)
    requires Enabled(s, m) && item in s.world.items && item !in After(s, m).world.items
    ensures m.Outside?
  {
  }

  /** An item that is gone by the time its launch goes on was taken off since it was chosen. */
  lemma {:induction false} GoneSinceChosen(run: seq<State>, moves: seq<Move>, k: nat) returns (i: nat)
    requires IsRun(run, moves) && k < |run| && run[k].hand.Choosing? && run[k].hand.item !in run[k].world.items
    ensures i < k && TakenOffInLaunch(run, moves, run[k].hand.item, i)
  {
    BeginsOwing(run, moves);
    ChosenItemGoesAt(run, moves, k);
    if run[k].hand.item in run[k - 1].world.items {
      i := k - 1;
    } else {
      i := GoneSinceChosen(run, moves, k - 1);
    }
  }

  lemma ChosenItemGoesAt(run: seq<State>, moves: seq<Move>, k: nat)
    requires IsPath(run, moves) && 0 < k < |run| && run[k].hand.Choosing? && run[k].hand.item !in run[k].world.items
    ensures run[k - 1].hand.Choosing? && run[k - 1].hand.item == run[k].hand.item
    ensures run[k].hand.item in run[k - 1].world.items ==> moves[k - 1].Outside?
  {
    assert StepAt(run, moves, k - 1);
    ChosenItemGoes(run[k - 1], moves[k - 1]);
  }

  lemma ChosenItemGoes(s: State, m: Move)
    requires Enabled(s, m) && After(s, m).hand.Choosing? && After(s, m).hand.item !in After(s, m).world.items
    ensures s.hand.Choosing? && s.hand.item == After(s, m).hand.item
    ensures s.hand.item in s.world.items ==> m.Outside?
  {
  }

  /** With the writes intact, a session whose item is gone, though its task is not, lost it while it was being launched. */
  lemma {:induction false} GoneSinceLaunched(run: seq<State>, moves: seq<Move>, k: nat, item: Id, task: Id) returns (i: nat)
    requires IsRun(run, moves) && k < |run| && run[k].world.intact
    requires Works(run[k].active, item, task) && item !in run[k].world.items && task !in run[k].world.deleted
    ensures i < k && TakenOffInLaunch(run, moves, item, i)
  {
    BeginsEmptyHanded(run, moves);
    OneBackFromTheLoss(run, moves, k, item, task);
    if !Works(run[k - 1].active, item, task) {
      i := GoneSinceChosen(run, moves, k - 1);
    } else if item in run[k - 1].world.items {
      i := k - 1;
    } else {
      i := GoneSinceLaunched(run, moves, k - 1, item, task);
    }
  }

  lemma BeginsEmptyHanded(run: seq<State>, moves: seq<Move>)
    requires IsRun(run, moves)
    ensures run[0].active == []
  {
  }

  lemma OneBackFromTheLoss(run: seq<State>, moves: seq<Move>, k: nat, item: Id, task: Id)
    requires IsRun(run, moves) && 0 < k < |run| && run[k].world.intact
    requires Works(run[k].active, item, task) && item !in run[k].world.items && task !in run[k].world.deleted
    ensures run[k - 1].world.intact && task !in run[k - 1].world.deleted
    ensures !Works(run[k - 1].active, item, task) ==>
              run[k - 1].hand.Choosing? && run[k - 1].hand.item == item && item !in run[k - 1].world.items
    ensures Works(run[k - 1].active, item, task) && item in run[k - 1].world.items ==>
              moves[k - 1].Outside? && run[k - 1].hand == Starting(item)
  {
    RunKeepsInvariant(run, moves, k - 1);
    RunIsLater(run, moves, k - 1, k);
    assert StepAt(run, moves, k - 1);
    LossAtAMove(run[k - 1], moves[k - 1], item, task);
  }

  lemma LossAtAMove(s: State, m: Move, item: Id, task: Id)
    requires Enabled(s, m) && Invariant(s) && s.world.intact
    requires Works(After(s, m).active, item, task) && item !in After(s, m).world.items && task !in After(s, m).world.deleted
    ensures !Works(s.active, item, task) ==> s.hand.Choosing? && s.hand.item == item && item !in s.world.items
    ensures Works(s.active, item, task) && item in s.world.items ==> m.Outside? && s.hand == Starting(item)
  {
    WorksOnlyFromStart(s, m, item, task);
    if item in s.world.items {
      OnlyOutsideTakesOff(s, m, item);
      if Works(s.active, item, task) {
        LosesOnlyWhileStarting(s, m.world, item, task);
      }
    }
  }

  lemma WorksOnlyFromStart(s: State, m: Move, item: Id, task: Id)
    requires Enabled(s, m) && Works(After(s, m).active, item, task)
    ensures Works(s.active, item, task) || (m.Start? && s.hand.Choosing? && s.hand.item == item && s.hand.task == task)
  {
    var s' := After(s, m);
    var k :| 0 <= k < |s'.active| && s'.active[k].item == item && s'.active[k].task == task;
    if !(m.Start? && k == |s.active|) {
      EntryWas(s, m, k);
    }
  }

  lemma LosesOnlyWhileStarting(s: State, w': World, item: Id, task: Id)
    requires Tied(s) && ConsoleMay(s.world, w') && Works(s.active, item, task)
    requires item in s.world.items && item !in w'.items && task !in w'.deleted
    ensures s.hand == Starting(item)
  {
    var k :| 0 <= k < |s.active| && s.active[k].item == item && s.active[k].task == task;
    assert Listed(s, s.active[k]);
  }

  /**
   Exactly when a session lacks its item. With every write of an item's state having gone through, a session whose task was
   not deleted works an item that is no longer listed if and only if that item was taken off
   between the moment the worker chose it and the moment it was marked running.
   */
  lemma ItemLostExactlyDuringLaunch(run: seq<State>, moves: seq<Move>, k: nat, at: nat)
    requires IsRun(run, moves) && k < |run| && run[k].world.intact
    requires at < |run[k].active| && run[k].active[at].task !in run[k].world.deleted
    ensures run[k].active[at].item !in run[k].world.items
            <==> exists i: nat :: i < k && TakenOffInLaunch(run, moves, run[k].active[at].item, i)
  {
    var item, task := run[k].active[at].item, run[k].active[at].task;
    if item !in run[k].world.items {
      assert Works(run[k].active, item, task);
      var i := GoneSinceLaunched(run, moves, k, item, task);
    }
    if i: nat :| i < k && TakenOffInLaunch(run, moves, item, i) {
      TakenOffStaysOff(run, moves, item, i, k);
    }
  }

  lemma TakenOffStaysOff(run: seq<State>, moves: seq<Move>, item: Id, i: nat, k: nat)
    requires IsRun(run, moves) && i < k < |run| && TakenOffInLaunch(run, moves, item, i)
    ensures item !in run[k].world.items
  {
    RunKeepsInvariant(run, moves, i);
    RunIsLater(run, moves, i, i + 1);
    RunIsLater(run, moves, i + 1, k);
  }

  /** With no write failing and neither deletions nor removals, items running and sessions in hand are the same. */
  lemma NoSessionWithoutItem(s: State)
    requires Reachable(s) && s.hand.Free? && s.world.intact
    requires s.world.deleted == {} && s.world.unlisted == {}
    ensures RunningItems(s.world) == ActiveItems(s.active)
    ensures |RunningItems(s.world)| == |s.active|
  {
    RunningItemsAreThoseInHand(s);
    forall i | i in ActiveItems(s.active) ensures i in s.world.items {
      var k :| 0 <= k < |s.active| && s.active[k].item == i;
      assert s.active[k].task !in s.world.deleted;
    }
    DistinctItems(s.active);
  }

  lemma {:induction false} DistinctItems(active: seq<Active>)
    requires forall j, k :: 0 <= j < k < |active| ==> active[j].item != active[k].item
    ensures |ActiveItems(active)| == |active|
  {
    if active != [] {
      var last := |active| - 1;
      var front := active[..last];
      assert active == front + [active[last]];
      ItemsOfMore(front, active[last]);
      DistinctItems(front);
      assert active[last].item !in ActiveItems(front);
    }
  }

  // ------------------------------------------------------------------ closing and generations

  /**
   On every path, failed reads and writes included: between two commands a session is closing exactly when one
   `Settle` or `Pause` of its generation is in flight, and otherwise none is. No place leaks.
   */
  lemma ClosingMeansOneEndInFlight(s: State, k: nat)
    requires Reachable(s) && s.hand.Free? && k < |s.active|
    ensures s.active[k].closing <==> Ends(s.world.inFlight, s.active[k].generation) == 1
    ensures !s.active[k].closing <==> Ends(s.world.inFlight, s.active[k].generation) == 0
  {
    ReachableInvariant(s);
  }

  /** A generation given out and no longer in hand never comes back, so a delayed command for it stays stale. */
  lemma ForgottenStaysForgotten(run: seq<State>, moves: seq<Move>, i: nat, j: nat, g: nat)
    requires IsRun(run, moves) && i <= j < |run|
    requires g <= run[i].generation && !Holds(run[i].active, g)
    ensures g <= run[j].generation && !Holds(run[j].active, g)
  {
    RunIsLater(run, moves, i, j);
  }

  /** With every write of an item's state having gone through, an item once settled never changes again while it is listed. */
  lemma SettledStaysSettled(run: seq<State>, moves: seq<Move>, i: nat, j: nat, item: Id)
    requires IsRun(run, moves) && i <= j < |run| && run[j].world.intact
    requires item in run[i].world.items && run[i].world.items[item].state.Settled() && item in run[j].world.items
    ensures run[j].world.items[item] == run[i].world.items[item]
  {
    RunIsLater(run, moves, i, j);
  }

  // ------------------------------------------------------------------ terminals

  /**
   A session is given up as ended only when its terminal went away by itself: the worker has not closed or renewed
   that terminal at any other point of the run, before or after.
   */
  lemma LostIsNeverClosed(run: seq<State>, moves: seq<Move>, at: nat, other: nat)
    requires IsRun(run, moves) && at < |moves| && other < |run|
    requires moves[at].Drop? && moves[at].why.TerminalGone?
    ensures moves[at].at < |run[at].active|
    ensures run[at].active[moves[at].at].terminal in run[at].world.ended
    ensures run[at].active[moves[at].at].terminal !in run[other].world.closed
  {
    assert StepAt(run, moves, at);
    var t := run[at].active[moves[at].at].terminal;
    assert t in run[at + 1].world.lost;
    var last := |run| - 1;
    RunIsLater(run, moves, at + 1, last);
    RunIsLater(run, moves, other, last);
    RunKeepsInvariant(run, moves, last);
  }

  /** A terminal the worker closed or renewed is no session's terminal, so its end, however late, finds nothing. */
  lemma ClosedIsNobodysTerminal(s: State, t: Id)
    requires Reachable(s) && t in s.world.closed
    ensures !HasTerminal(s.active, t)
  {
    ReachableInvariant(s);
  }

  // ------------------------------------------------------------------ places

  lemma {:induction false} WidestIsFixed(run: seq<State>, moves: seq<Move>, k: nat, parallel: int)
    requires IsRun(run, moves) && k < |run|
    requires forall j :: 0 <= j < |run| ==> run[j].world.settings.parallel == parallel
    ensures run[k].world.widest == Places(parallel)
  {
    if k == 0 {
      assert run[0].world.settings.parallel == parallel;
    } else {
      WidestIsFixed(run, moves, k - 1, parallel);
      WidestFollows(run, moves, k - 1);
      assert run[k].world.settings.parallel == parallel;
    }
  }

  lemma WidestFollows(run: seq<State>, moves: seq<Move>, k: nat)
    requires IsPath(run, moves) && k < |moves|
    ensures run[k + 1].world.widest == run[k].world.widest || run[k + 1].world.widest == Max(run[k].world.widest, Places(run[k + 1].world.settings.parallel))
  {
    assert StepAt(run, moves, k);
  }

  /** While the setting stays as it is, the worker never holds more sessions than it says, or than one when it says less. */
  lemma PlacesAreNeverExceeded(run: seq<State>, moves: seq<Move>, k: nat, parallel: int)
    requires IsRun(run, moves) && k < |run|
    requires forall j :: 0 <= j < |run| ==> run[j].world.settings.parallel == parallel
    ensures parallel >= 1 ==> |run[k].active| <= parallel
    ensures parallel < 1 ==> |run[k].active| <= 1
  {
    WidestIsFixed(run, moves, k, parallel);
    RunKeepsInvariant(run, moves, k);
  }

  /**
   While any session is in hand the queue is armed, whatever the console does and whatever fails: it is finished,
   stopped, stopped as blocked or put on hold only once the last session is gone.
   */
  lemma QueueRestsEmptyHanded(s: State)
    requires Reachable(s) && !s.world.queue.Armed?
    ensures s.active == [] && !Filling(s.hand)
  {
    ReachableInvariant(s);
  }

  // ------------------------------------------------------------------ what a session needs to start

  lemma BeginsOwing(run: seq<State>, moves: seq<Move>)
    requires IsRun(run, moves)
    ensures run[0].hand.Ending?
  {
  }

  /** Only a usage reading clear of the ceiling makes the item at hand one to launch. */
  lemma {:induction false} ClearSince(run: seq<State>, moves: seq<Move>, k: nat) returns (c: nat)
    requires IsRun(run, moves) && k < |run| && run[k].hand.Choosing? && run[k].hand.clear
    ensures c < k && moves[c].CheckUsage? && run[c].hand.Choosing? && run[c].hand.(clear := true) == run[k].hand && run[c].active == run[k].active
    ensures !UsageCeiling.Holds(Some(run[c].world.usage), run[k].hand.settings.ceiling, run[k].hand.settings.model)
  {
    BeginsOwing(run, moves);
    ClearedOrKeptAt(run, moves, k);
    if moves[k - 1].CheckUsage? {
      c := k - 1;
    } else {
      c := ClearSince(run, moves, k - 1);
    }
  }

  lemma ClearedOrKeptAt(run: seq<State>, moves: seq<Move>, k: nat)
    requires IsPath(run, moves) && 0 < k < |run| && run[k].hand.Choosing? && run[k].hand.clear
    ensures run[k - 1].hand.Choosing? && run[k - 1].hand.(clear := true) == run[k].hand && run[k - 1].active == run[k].active
    ensures moves[k - 1].CheckUsage? ==>
              !UsageCeiling.Holds(Some(run[k - 1].world.usage), run[k].hand.settings.ceiling, run[k].hand.settings.model)
    ensures !moves[k - 1].CheckUsage? ==> run[k - 1].hand == run[k].hand
  {
    assert StepAt(run, moves, k - 1);
    ClearedOrKept(run[k - 1], moves[k - 1], run[k]);
  }

  lemma ClearedOrKept(s: State, m: Move, s': State)
    requires Next(s, m, s') && s'.hand.Choosing? && s'.hand.clear
    ensures s.hand.Choosing? && s.hand.(clear := true) == s'.hand && s.active == s'.active
    ensures m.CheckUsage? ==> !UsageCeiling.Holds(Some(s.world.usage), s'.hand.settings.ceiling, s'.hand.settings.model)
    ensures !m.CheckUsage? ==> s.hand == s'.hand
  {
  }

  lemma {:induction false} ChosenSince(run: seq<State>, moves: seq<Move>, k: nat) returns (b: nat)
    requires IsRun(run, moves) && k < |run| && run[k].hand.Choosing?
    ensures b < k && moves[b] == Choose(run[k].hand.item) && run[b].hand == Surveying(run[k].hand.settings)
    ensures FirstReady(run[b].world, run[b].parked, run[k].hand.item) && run[b].world.items[run[k].hand.item].task == run[k].hand.task
    ensures run[b].active == run[k].active
  {
    BeginsOwing(run, moves);
    ChosenOrKeptAt(run, moves, k);
    if moves[k - 1].Choose? {
      b := k - 1;
    } else {
      b := ChosenSince(run, moves, k - 1);
    }
  }

  lemma ChosenOrKeptAt(run: seq<State>, moves: seq<Move>, k: nat)
    requires IsPath(run, moves) && 0 < k < |run| && run[k].hand.Choosing?
    ensures run[k - 1].active == run[k].active
    ensures moves[k - 1].Choose? ==>
              && moves[k - 1] == Choose(run[k].hand.item) && run[k - 1].hand == Surveying(run[k].hand.settings)
              && FirstReady(run[k - 1].world, run[k - 1].parked, run[k].hand.item)
              && run[k - 1].world.items[run[k].hand.item].task == run[k].hand.task
    ensures !moves[k - 1].Choose? ==> run[k - 1].hand.Choosing? && run[k - 1].hand.(clear := run[k].hand.clear) == run[k].hand
  {
    assert StepAt(run, moves, k - 1);
    ChosenOrKept(run[k - 1], moves[k - 1], run[k]);
  }

  lemma ChosenOrKept(s: State, m: Move, s': State)
    requires Next(s, m, s') && s'.hand.Choosing?
    ensures s'.active == s.active
    ensures m.Choose? ==>
              && m.item == s'.hand.item && s.hand == Surveying(s'.hand.settings)
              && FirstReady(s.world, s.parked, m.item) && s.world.items[m.item].task == s'.hand.task
    ensures !m.Choose? ==> s.hand.Choosing? && s.hand.(clear := s'.hand.clear) == s'.hand
  {
  }

  lemma {:induction false} SurveyedSince(run: seq<State>, moves: seq<Move>, k: nat) returns (a: nat)
    requires IsRun(run, moves) && k < |run| && run[k].hand.Surveying?
    ensures a < k && moves[a].Survey? && run[a].world.settings == run[k].hand.settings && run[a].world.queue.Armed?
    ensures run[a].active == run[k].active && |run[a].active| < Places(run[a].world.settings.parallel)
  {
    BeginsOwing(run, moves);
    SurveyedOrKeptAt(run, moves, k);
    if moves[k - 1].Survey? {
      a := k - 1;
    } else {
      a := SurveyedSince(run, moves, k - 1);
    }
  }

  lemma SurveyedOrKeptAt(run: seq<State>, moves: seq<Move>, k: nat)
    requires IsPath(run, moves) && 0 < k < |run| && run[k].hand.Surveying?
    ensures run[k - 1].active == run[k].active
    ensures moves[k - 1].Survey? ==>
              && run[k].hand.settings == run[k - 1].world.settings && run[k - 1].world.queue.Armed?
              && |run[k - 1].active| < Places(run[k - 1].world.settings.parallel)
    ensures !moves[k - 1].Survey? ==> run[k - 1].hand == run[k].hand
  {
    assert StepAt(run, moves, k - 1);
    SurveyedOrKept(run[k - 1], moves[k - 1], run[k]);
  }

  lemma SurveyedOrKept(s: State, m: Move, s': State)
    requires Next(s, m, s') && s'.hand.Surveying?
    ensures s'.active == s.active
    ensures m.Survey? ==> s'.hand.settings == s.world.settings && s.world.queue.Armed? && |s.active| < Places(s.world.settings.parallel)
    ensures !m.Survey? ==> s.hand == s'.hand
  {
  }

  /**
   No session starts out of turn, over the ceiling or without a place. Whenever one does, the worker had read the settings of an armed queue
   with fewer sessions in hand than they allow; then chosen its item, which was listed and waiting, not passed over and
   with nothing it depends on open, while every item before it in the order was not so; and then found
   the usage clear of the ceiling of those settings.
   */
  lemma SessionsStartInTurn(run: seq<State>, moves: seq<Move>, i: nat) returns (a: nat, b: nat, c: nat)
    requires IsRun(run, moves) && i < |moves| && moves[i].Start?
    ensures a < b < c < i && |run[i + 1].active| == |run[i].active| + 1
    ensures var settings := run[a].world.settings;
            && run[a].world.queue.Armed?
            && (|run[i].active| < settings.parallel || |run[i].active| == 0)
            && !UsageCeiling.Holds(Some(run[c].world.usage), settings.ceiling, settings.model)
    ensures var w, parked, item := run[b].world, run[b].parked, run[i + 1].active[|run[i].active|].item;
            && item in w.items && item !in parked && item in w.order
            && w.items[item] == Item(run[i + 1].active[|run[i].active|].task, Queued) && w.items[item].task !in w.waiting
            && exists k :: 0 <= k < |w.order| && w.order[k] == item
                           && forall j :: 0 <= j < k && w.order[j] in w.items && w.items[w.order[j]].state == Queued && w.order[j] !in parked ==>
                                w.items[w.order[j]].task in w.waiting
  {
    assert StepAt(run, moves, i);
    StartAdds(run[i], moves[i], run[i + 1]);
    c := ClearSince(run, moves, i);
    b := ChosenSince(run, moves, c);
    a := SurveyedSince(run, moves, b);
  }

  lemma StartAdds(s: State, m: Move, s': State)
    requires Next(s, m, s') && m.Start?
    ensures s.hand.Choosing? && s.hand.clear && |s'.active| == |s.active| + 1
    ensures s'.active[|s.active|].item == s.hand.item && s'.active[|s.active|].task == s.hand.task
  {
  }

  // ------------------------------------------------------------------ the race with the console

  /** One item waits, or none is left; everything else stays as it is. */
  function RaceWorld(waits: bool, issued: set<Id>): World {
    World(Armed, Settings(1, None, None), if waits then map[1 := Item(2, Queued)] else map[], if waits then [1] else [],
          {1}, if waits then {} else {1}, {}, {}, issued, {}, {}, {}, [], UsageCeiling.UsageView(true, []), true, 0, 1, 0)
  }

  lemma RaceRecovers()
    ensures Reachable(State([], {}, 0, Free, RaceWorld(true, {})))
  {
    var w := RaceWorld(true, {});
    var anew := State([], {}, 0, Ending({}), w);
    assert (set i | i in w.items && w.items[i].state == Running) == {};
    InitialIsReachable(anew);
    assert Requeue(w, true).items == w.items;
    NextIsReachable(anew, Requeued(true, false));
  }

  lemma RaceSurveys()
    ensures Reachable(State([], {}, 0, Surveying(Settings(1, None, None)), RaceWorld(true, {})))
  {
    RaceRecovers();
    NextIsReachable(State([], {}, 0, Free, RaceWorld(true, {})), Survey);
  }

  lemma RaceChooses()
    ensures Reachable(State([], {}, 0, Choosing(1, 2, Settings(1, None, None), true), RaceWorld(true, {})))
  {
    RaceSurveys();
    var w := RaceWorld(true, {});
    assert w.order[0] == 1 && FirstReady(w, {}, 1);
    NextIsReachable(State([], {}, 0, Surveying(Settings(1, None, None)), w), Choose(1));
    NextIsReachable(State([], {}, 0, Choosing(1, 2, Settings(1, None, None), false), w), CheckUsage);
  }

  lemma RaceBegins()
    ensures Reachable(State([Active(1, 1, 2, 3, 0, false, false)], {}, 1, Starting(1), RaceWorld(true, {3})))
  {
    RaceChooses();
    NextIsReachable(State([], {}, 0, Choosing(1, 2, Settings(1, None, None), true), RaceWorld(true, {})), Start(3, 0));
  }

  lemma RaceConsole()
    ensures ConsoleMay(RaceWorld(true, {3}), RaceWorld(false, {3}))
  {
    var w, w' := RaceWorld(true, {3}), RaceWorld(false, {3});
    assert w.items == map[1 := Item(2, Queued)] && w'.items == map[] && w'.order == [] && w'.unlisted == {1};
    assert w'.items.Keys - w.items.Keys == {};
    assert w'.inFlight[..|w.inFlight|] == w.inFlight;
  }

  /**
   The exception in `RunningItemsAreThoseInHand` is real. A run in which nothing fails and no task is deleted, but the
   console takes an item off after the worker chose it and before it is marked running, ends
   between two commands with a session whose item is gone.
   */
  lemma RemovalDuringLaunchLeavesASession()
    ensures exists s :: Reachable(s) && s.hand.Free? && s.world.intact && s.world.deleted == {}
                        && |s.active| == 1 && s.active[0].item !in s.world.items
  {
    var entry := Active(1, 1, 2, 3, 0, false, false);
    var starting := State([entry], {}, 1, Starting(1), RaceWorld(true, {3}));
    var removed := starting.(world := RaceWorld(false, {3}));
    RaceBegins();
    RaceConsole();
    NextIsReachable(starting, Outside(removed.world));
    NextIsReachable(removed, Write(1, Running, true));
    var s := removed.(hand := Free);
    assert s == After(removed, Write(1, Running, true));
    assert s.active[0].item == 1;
  }
}
