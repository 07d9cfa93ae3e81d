/**
 The worker itself, deciding on one command after another. Wherever the program waits for an answer, `Interfere` lets
 the world move on first; any answer may fail to come. Every method is proved to make only
 moves of the protocol (`Leads`), so `Valid` carries the invariant of every run and `Later` what no run undoes.
 */
module RunQueueWorker {
  import opened Numbers
  import opened Options
  import opened Sequences
  import opened RunQueueWorld
  import opened RunQueueProtocol
  import opened RunQueueRuns
  import UsageCeiling

  datatype Snapshot = Snapshot(queue: QueueState, settings: Settings)

  datatype NextTurn = Ready(item: Id, task: Id) | Blocked | Empty

  /** What is left of a task; `spent` says that nothing more is for the session in its terminal. */
  datatype TaskWork = TaskWork(hasWork: bool, settledSteps: nat, spent: bool)

  datatype WorkRead = Read(work: TaskWork) | UnknownTask | ReadFailed

  datatype Opening = Opened(terminal: Id) | Refused | OpenFailed

  /** The answers a launch got, as far as it asked: the task's work, whether a terminal is live on it, a worktree, a terminal. */
  datatype Answers = Answers(before: WorkRead, occupied: bool, worktree: bool, opening: Opening)

  /** What a look at a task in hand came to. */
  datatype Reviewed = NotInHand | LetGo | WillSettle | WillPause | WillRenew | GoesOn

  /** What a look saw: the work left, and, when steps were claimed since, the settings and the usage reading. */
  datatype Sight = Sight(read: WorkRead, settings: Settings, usage: UsageCeiling.UsageView)

  /** Why `advance` stopped; at the ceiling, with the settings and the reading that say so. */
  datatype Rest = NotArmed | Full | NothingToStart | AtCeiling(settings: Settings, usage: UsageCeiling.UsageView)

  /** What a command came to. */
  datatype Decision =
    | Ticked(ok: bool, rest: Rest)
    | Looked(ok: bool, did: Reviewed, sight: Sight)
    | WentAway(ok: bool, left: WorkRead, rest: Rest)
    | Ended(ok: bool, rest: Rest)
    | Followed(ok: bool, read: WorkRead, opening: Opening, rest: Rest)
    | Stopped(ok: bool)

  const NO_USAGE := UsageCeiling.UsageView(false, [])
  const NO_SETTINGS := Settings(1, None, None)

  // ------------------------------------------------------------------ time passing

  /** An item known before is as it was, or gone. */
  ghost predicate Keeps(w: World, w': World) {
    w.known <= w'.known && forall i :: i in w.known && i in w'.items ==> i in w.items && w'.items[i] == w.items[i]
  }

  /** One item has another state; the others are as they were, or gone. */
  ghost predicate Marks(w: World, item: Id, outcome: ItemState, w': World) {
    && w.known <= w'.known
    && forall i :: i in w.known && i in w'.items ==>
         && i in w.items && w'.items[i].task == w.items[i].task
         && w'.items[i].state == if i == item then outcome else w.items[i].state
  }

  /** What was marked running waits; the others are as they were, or gone. */
  ghost predicate WaitsAgain(w: World, w': World) {
    && w.known <= w'.known
    && forall i :: i in w.known && i in w'.items ==>
         && i in w.items && w'.items[i].task == w.items[i].task
         && (w.items[i].state == Running ==> w'.items[i].state == Queued)
         && (w.items[i].state != Running ==> w'.items[i].state == w.items[i].state)
  }

  /**
   Time passing between two answers, as far as a decision under way relies on it: items are kept, an armed queue is armed,
   and the backlog has not grown.
   */
  ghost predicate Calm(w: World, w': World) {
    && w'.issued == w.issued && w'.closed == w.closed && w'.lost == w.lost && w'.intact == w.intact
    && w.deleted <= w'.deleted && w.ended <= w'.ended
    && w.widest <= w'.widest
    && (w.queue.Armed? ==> w'.queue.Armed?)
    && (w.queue.Holding? ==> w'.queue.Holding?)
    && (w'.queue.Idle? ==> w.queue.Idle?)
    && Keeps(w, w')
    && (forall p :: Backlog(w', p) <= Backlog(w, p))
  }

  lemma ConsoleIsCalm(w: World, w': World)
    requires ConsoleMay(w, w')
    ensures Calm(w, w')
  {
    forall p ensures Backlog(w', p) <= Backlog(w, p) {
      ConsoleNeverGrowsTheBacklog(w, w', p);
    }
  }

  lemma ConsoleIsReflexive(w: World)
    requires SoundWorld(w)
    ensures ConsoleMay(w, w)
  {
    assert w.items.Keys - w.items.Keys == {};
    assert w.inFlight[..|w.inFlight|] == w.inFlight;
  }

  /** `mark_item` wrote `outcome` on the item, or failed, after the world had moved on. */
  ghost predicate Written(w: World, item: Id, outcome: ItemState, ok: bool, w': World) {
    exists between :: Calm(w, between) && w' == Mark(between, item, outcome, ok)
  }

  lemma MarkedLeavesTheBacklog(w: World, item: Id, outcome: ItemState, parked: set<Id>)
    requires outcome != Queued || item in parked
    ensures Startable(Mark(w, item, outcome, true), parked) == Startable(w, parked + {item})
  {
  }

  /** An item marked anything but waiting, or parked, has left the backlog. */
  lemma WrittenLeavesTheBacklog(w: World, item: Id, outcome: ItemState, w': World, parked: set<Id>)
    requires Written(w, item, outcome, true, w')
    requires outcome != Queued || item in parked
    ensures item !in Startable(w', parked)
    ensures Backlog(w', parked) <= Backlog(w, parked + {item})
  {
    var between :| Calm(w, between) && w' == Mark(between, item, outcome, true);
    MarkedLeavesTheBacklog(between, item, outcome, parked);
    assert Backlog(between, parked + {item}) <= Backlog(w, parked + {item});
  }

  lemma NothingWaits(w: World)
    ensures Startable(w, {}) == {} <==> forall i :: i in w.items ==> w.items[i].state != Queued
  {
    assert forall i :: i in w.items && w.items[i].state == Queued ==> i in Startable(w, {});
  }

  /** Taking up the item whose turn it is makes the backlog shorter. */
  lemma TakingUpShortens(w: World, parked: set<Id>, item: Id)
    requires item in Startable(w, parked)
    ensures Backlog(w, parked + {item}) < Backlog(w, parked)
  {
    assert Startable(w, parked + {item}) == Startable(w, parked) - {item};
  }

  // ------------------------------------------------------------------ what becomes of an item

  /** Nothing changes hands and no terminal is had; the item, if still listed, has the outcome. */
  ghost predicate DismissedAs(s: State, s': State, item: Id, outcome: ItemState) {
    && s'.active == s.active && s'.parked == s.parked && s'.generation == s.generation && s'.world.issued == s.world.issued
    && (item in s'.world.items ==> s'.world.items[item].state == outcome)
  }

  ghost predicate PassedOverAs(s: State, s': State, item: Id) {
    && s'.active == s.active && s'.parked == s.parked + {item} && s'.generation == s.generation && s'.world.issued == s.world.issued
    && (item in s'.world.items ==> s'.world.items[item].state == Queued)
  }

  /** A session of a new generation is in hand on the item, which, if still listed, runs. */
  ghost predicate TakenUpAs(s: State, s': State, item: Id, task: Id, terminal: Id, settledSteps: nat) {
    && s'.generation == s.generation + 1 && s'.parked == s.parked && s'.world.issued == s.world.issued + {terminal}
    && s'.active == s.active + [Active(s'.generation, item, task, terminal, settledSteps, false, false)]
    && (item in s'.world.items ==> s'.world.items[item].state == Running)
  }

  /**
   What becomes of an item, by the answers: its task is gone, or has nothing left, or somebody works it already; tasks run side by
   side and it gets no worktree; no terminal is to be had; or a session is opened on it.
   */
  ghost predicate Handled(s: State, s': State, item: Id, task: Id, a: Answers, parallel: int) {
    && !a.before.ReadFailed?
    && (a.before.UnknownTask? ==> DismissedAs(s, s', item, Failed))
    && (a.before.Read? && !a.before.work.hasWork ==> DismissedAs(s, s', item, Skipped))
    && (a.before.Read? && a.before.work.hasWork ==>
          && (a.occupied ==> DismissedAs(s, s', item, Failed))
          && (!a.occupied && parallel > 1 && !a.worktree ==> PassedOverAs(s, s', item))
          && (!a.occupied && (parallel <= 1 || a.worktree) ==>
                && !a.opening.OpenFailed?
                && (a.opening.Refused? ==> DismissedAs(s, s', item, Failed))
                && (a.opening.Opened? ==> TakenUpAs(s, s', item, task, a.opening.terminal, a.before.work.settledSteps))))
  }

  /** The item is out of what may still be taken up, and what is left is no more than what was left without it. */
  ghost predicate OutOfTheBacklog(s: State, s': State, item: Id) {
    item !in Startable(s'.world, s'.parked) && Backlog(s'.world, s'.parked) <= Backlog(s.world, s.parked + {item})
  }

  // ------------------------------------------------------------------ what each command comes to

  ghost predicate OverCeiling(settings: Settings, usage: UsageCeiling.UsageView) {
    UsageCeiling.Holds(Some(usage), settings.ceiling, settings.model)
  }

  /** Between `s` and `s'` the world had these settings, and then this usage reading. */
  ghost predicate Seen(s: State, s': State, settings: Settings, usage: UsageCeiling.UsageView) {
    exists a, b :: Leads(s, a) && Leads(a, b) && Leads(b, s') && a.world.settings == settings && b.world.usage == usage
  }

  lemma SeenWithin(s0: State, s: State, s': State, s1: State, settings: Settings, usage: UsageCeiling.UsageView)
    requires Leads(s0, s) && Seen(s, s', settings, usage) && Leads(s', s1)
    ensures Seen(s0, s1, settings, usage)
  {
    var a, b :| Leads(s, a) && Leads(a, b) && Leads(b, s') && a.world.settings == settings && b.world.usage == usage;
    LeadsOn(s0, s, a);
    LeadsOn(b, s', s1);
  }

  /** Why the places are filled as far as they can be. */
  ghost predicate Rested(s: State, rest: Rest) {
    match rest
    case NotArmed => !s.world.queue.Armed?
    case Full => s.active != [] && |s.active| >= s.world.settings.parallel
    case NothingToStart =>
      if s.active == [] then s.world.queue.Idle? || Startable(s.world, {}) != {}
      else forall i :: i in s.world.items && s.world.items[i].state == Queued && i !in s.parked ==> s.world.items[i].task in s.world.waiting
    case AtCeiling(settings, usage) => OverCeiling(settings, usage) && (s.active == [] ==> s.world.queue.Holding?)
  }

  /** A tick rests the queue, and no session is left open in a terminal that was gone when it came. */
  ghost predicate TickedAs(s: State, s': State, rest: Rest) {
    && Rested(s', rest)
    && forall k :: 0 <= k < |s.active| && !s.active[k].closing && s.active[k].terminal in s.world.ended ==> !HasOpen(s'.active, s.active[k].terminal)
  }

  predicate IsFirstOn(active: seq<Active>, task: Id, k: nat)
    requires k < |active|
  {
    active[k].task == task && forall j :: 0 <= j < k ==> active[j].task != task
  }

  /** What a look comes to follows from what it saw: a claim over the ceiling pauses, and otherwise only spent work renews. */
  ghost predicate Follows(did: Reviewed, sight: Sight, entry: Active) {
    match sight.read
    case ReadFailed => false
    case UnknownTask => did.LetGo?
    case Read(work) =>
      if !work.hasWork then did.WillSettle?
      else if work.settledSteps > entry.settledSteps && OverCeiling(sight.settings, sight.usage) then did.WillPause?
      else if work.spent then did.WillRenew?
      else did.GoesOn?
  }

  /** What a look left in hand and in flight. No entry but the one looked at changes, unless a place was filled anew. */
  ghost predicate Done(did: Reviewed, sight: Sight, before: seq<Active>, at: nat, s': State)
    requires at < |before|
  {
    var a := before[at];
    match did
    case NotInHand => true
    case LetGo => !Holds(s'.active, a.generation) && a.terminal in s'.world.closed
    case WillSettle => s'.active == before[at := a.(closing := true)] && Command.Settle(a.generation, Finished) in s'.world.inFlight
    case WillPause =>
      && sight.read.Read? && s'.active == before[at := a.(settledSteps := sight.read.work.settledSteps, closing := true)]
      && Command.Pause(a.generation) in s'.world.inFlight
    case WillRenew => NotedOn(sight, before, at, s'.active) && Command.Renew(a.generation) in s'.world.inFlight
    case GoesOn => NotedOn(sight, before, at, s'.active)
  }

  /** The steps claimed so far are on record, and never fewer than before. */
  ghost predicate NotedOn(sight: Sight, before: seq<Active>, at: nat, active: seq<Active>)
    requires at < |before|
  {
    sight.read.Read? && active == before[at := before[at].(settledSteps := Max(before[at].settledSteps, sight.read.work.settledSteps))]
  }

  ghost predicate LookedAs(s: State, s': State, task: Id, ok: bool, did: Reviewed, sight: Sight) {
    && (did.NotInHand? ==> ok && s' == s)
    && ((forall k :: 0 <= k < |s.active| ==> s.active[k].task != task) ==> did.NotInHand?)
    && forall k :: 0 <= k < |s.active| && IsFirstOn(s.active, task, k) ==>
         if s.active[k].closing then did.NotInHand?
         else ok ==> LookedAtAs(s, s', k, did, sight)
  }

  ghost predicate LookedAtAs(s: State, s': State, at: nat, did: Reviewed, sight: Sight)
    requires at < |s.active|
  {
    && Follows(did, sight, s.active[at]) && Done(did, sight, s.active, at, s')
    && (sight.read.Read? && sight.read.work.hasWork && sight.read.work.settledSteps > s.active[at].settledSteps ==>
          Seen(s, s', sight.settings, sight.usage))
  }

  /** Settled: the session is out of hand, its terminal closed, its item recorded and its place filled; a stale generation changes nothing. */
  ghost predicate SettledAs(s: State, s': State, g: nat, outcome: ItemState, ok: bool, rest: Rest) {
    && !Holds(s'.active, g)
    && (!Holds(s.active, g) ==> ok && s' == s.(hand := Free))
    && forall k :: 0 <= k < |s.active| && s.active[k].generation == g ==>
         && s.active[k].terminal in s'.world.closed
         && (ok ==> Rested(s', rest))
         && (ok && s'.world.intact && s.active[k].item in s'.world.items ==> s'.world.items[s.active[k].item].state == outcome)
  }

  /** Paused: exactly that session is out of hand, its item waits again, and the queue holds when it was the last. */
  ghost predicate PausedAs(s: State, s': State, g: nat, ok: bool) {
    && !Holds(s'.active, g)
    && (!Holds(s.active, g) ==> ok && s' == s.(hand := Free))
    && forall k :: 0 <= k < |s.active| && s.active[k].generation == g ==>
         && s'.active == Without(s.active, k)
         && s.active[k].terminal in s'.world.closed
         && (ok && s'.world.intact && s.active[k].item in s'.world.items ==> s'.world.items[s.active[k].item].state == Queued)
         && (ok && s'.active == [] ==> s'.world.queue.Holding?)
  }

  /** Finished when a read says that nothing was left, and failed in every other case. */
  ghost predicate CameTo(state: ItemState, left: WorkRead) {
    match left
    case Read(work) => state == if work.hasWork then Failed else Finished
    case UnknownTask => state == Failed
    case ReadFailed => state == Failed
  }

  /** A terminal that went away takes its open session with it; one that is closing, closed or nobody's changes nothing. */
  ghost predicate WentAwayAs(s: State, s': State, terminal: Id, ok: bool, left: WorkRead, rest: Rest) {
    && (!HasTerminal(s.active, terminal) || terminal in s.world.closed ==> ok && s' == s)
    && forall k :: 0 <= k < |s.active| && s.active[k].terminal == terminal ==>
         if s.active[k].closing then ok && s' == s
         else
           && !Holds(s'.active, s.active[k].generation) && terminal in s'.world.lost
           && (ok ==> Rested(s', rest))
           && (ok && s'.world.intact && s.active[k].item in s'.world.items ==> CameTo(s'.world.items[s.active[k].item].state, left))
  }

  /** The session goes on in the terminal opened, its last one closed; or none was to be had, and it is out of hand and its item failed. */
  ghost predicate FollowedAs(s: State, s': State, at: nat, ok: bool, opening: Opening, rest: Rest)
    requires at < |s.active|
  {
    var a := s.active[at];
    if opening.Opened? then
      && ok && opening.terminal !in s.world.issued && a.terminal in s'.world.closed
      && s'.active == s.active[at := a.(terminal := opening.terminal)]
    else
      && !Holds(s'.active, a.generation)
      && (ok ==> Rested(s', rest))
      && (ok && s'.world.intact && a.item in s'.world.items ==> s'.world.items[a.item].state == Failed)
  }

  /** Stale, closing, unread or going on by itself: the session keeps its terminal. Otherwise it is followed. */
  ghost predicate RenewedAs(s: State, s': State, g: nat, ok: bool, read: WorkRead, opening: Opening, rest: Rest) {
    && (!Holds(s.active, g) ==> ok && s' == s)
    && forall k :: 0 <= k < |s.active| && s.active[k].generation == g ==>
         if s.active[k].closing then ok && s' == s
         else if !read.Read? || !read.work.spent then ok == read.Read? && s'.active == s.active
         else FollowedAs(s, s', k, ok, opening, rest)
  }

  ghost predicate StoppedAs(s: State, s': State, ok: bool) {
    && s'.active == [] && s'.parked == {}
    && (forall k :: 0 <= k < |s.active| ==> s.active[k].terminal in s'.world.closed)
    && (ok ==> s'.world.queue.Idle? && RunningItems(s'.world) == {} && WaitsAgain(s.world, s'.world))
  }

  /** What a command delivered in state `s` came to in `s'`. */
  ghost predicate Dispatched(c: Command, s: State, s': State, d: Decision) {
    match c
    case Tick => d.Ticked? && (d.ok ==> TickedAs(s, s', d.rest))
    case Review(task) => d.Looked? && LookedAs(s, s', task, d.ok, d.did, d.sight)
    case SessionEnded(terminal) => d.WentAway? && WentAwayAs(s, s', terminal, d.ok, d.left, d.rest)
    case Settle(g, outcome) => d.Ended? && SettledAs(s, s', g, outcome, d.ok, d.rest)
    case Renew(g) => d.Followed? && RenewedAs(s, s', g, d.ok, d.read, d.opening, d.rest)
    case Pause(g) => d.Ended? && PausedAs(s, s', g, d.ok)
    case Stop => d.Stopped? && StoppedAs(s, s', d.ok)
  }

  /** An answer failed to come on the way from `s` to `s'`. */
  ghost predicate Faulted(s: State, s': State) {
    s.world.faults < s'.world.faults
  }

  /** Only one session is the first on a task, so what is said of it is all there is to say. */
  lemma LookedAtTheFirst(s: State, s': State, task: Id, at: nat, ok: bool, did: Reviewed, sight: Sight)
    requires at < |s.active| && IsFirstOn(s.active, task, at) && !s.active[at].closing && !did.NotInHand?
    requires ok ==> LookedAtAs(s, s', at, did, sight)
    ensures LookedAs(s, s', task, ok, did, sight)
  {
    forall k | 0 <= k < |s.active| && IsFirstOn(s.active, task, k) ensures k == at {
      assert s.active[k].task == task;
    }
  }

  lemma UniqueGenerations(s: State)
    requires Reachable(s)
    ensures forall j, k :: 0 <= j < |s.active| && 0 <= k < |s.active| && s.active[j].generation == s.active[k].generation ==> j == k
  {
    ReachableInvariant(s);
  }

  lemma UniqueTerminals(s: State)
    requires Reachable(s)
    ensures forall j, k :: 0 <= j < |s.active| && 0 <= k < |s.active| && s.active[j].terminal == s.active[k].terminal ==> j == k
    ensures forall k :: 0 <= k < |s.active| ==> s.active[k].terminal in s.world.issued - s.world.closed - s.world.lost
  {
    ReachableInvariant(s);
  }

  lemma DroppedIsLetGo(s: State, at: nat, why: Why)
    requires Reachable(s) && Enabled(s, Drop(at, why))
    ensures var s', gone := After(s, Drop(at, why)), s.active[at];
            && !Holds(s'.active, gone.generation) && gone.generation <= s.generation
            && !HasTerminal(s'.active, gone.terminal) && gone.terminal in s'.world.issued
            && (!why.TerminalGone? ==> gone.terminal !in s'.world.lost)
  {
    ReachableInvariant(s);
  }

  /** What was let go and not yet recorded is known, as long as the writes are intact. */
  lemma EndingIsKnown(s: State)
    requires Reachable(s) && s.hand.Ending? && s.world.intact
    ensures s.hand.items <= s.world.known
  {
    ReachableInvariant(s);
  }

  lemma ItemsListedAreKnown(s: State)
    requires Reachable(s)
    ensures s.world.items.Keys <= s.world.known
  {
    ReachableInvariant(s);
  }

  /** One move more from a state reached, along a decision that began in `a`. */
  lemma NextOn(a: State, s: State, m: Move)
    requires Reachable(s) && Leads(a, s) && Enabled(s, m)
    ensures Reachable(After(s, m)) && Leads(a, After(s, m)) && a.world.faults <= s.world.faults
  {
    NextIsReachable(s, m);
    LeadsByOne(a, s, m, After(s, m));
    FaultsAddUp(a, s);
  }

  class Worker {
    var active: seq<Active>
    /** Items no session could be opened on, left alone for as long as the queue stays armed. */
    var parked: set<Id>
    var generation: nat
    /** Everything outside the worker. */
    var world: World
    ghost var hand: Hand

    ghost function Now(): State
      reads this
    {
      State(active, parked, generation, hand, world)
    }

    ghost predicate Valid()
      reads this
    {
      Reachable(Now())
    }

    /** It is this item's turn, and the usage leaves room for it. */
    ghost predicate OnTurn(item: Id, task: Id)
      reads this
    {
      hand.Choosing? && hand.item == item && hand.task == task && hand.clear
    }

    /** A worker at rest, over any queue a previous process left behind. */
    constructor (queue: World)
      requires Initial(State([], {}, 0, Ending(RunningItems(queue)), queue))
      ensures Valid() && world == queue && active == [] && hand == Ending(RunningItems(queue))
    {
      active, parked, generation, world := [], {}, 0, queue;
      hand := Ending(RunningItems(queue));
      new;
      InitialIsReachable(Now());
    }

    // ---------------------------------------------------------------- the world's answers

    method Interfere()
      requires Valid()
      modifies this`world
      ensures Valid() && Leads(old(Now()), Now()) && Calm(old(world), world)
    {
      ghost var s := Now();
      LeadsToItself(s);
      ReachableInvariant(s);
      ConsoleIsReflexive(world);
      ConsoleIsCalm(world, world);
      var w: World := *;
      if ConsoleMay(world, w) {
        ConsoleIsCalm(world, w);
        world := w;
        NextIsReachable(s, Outside(w));
      }
    }

    /** The world moves on until the answer comes, or fails to. */
    method Answer() returns (fails: bool)
      requires Valid()
      modifies this`world
      ensures Valid() && Leads(old(Now()), Now()) && Calm(old(world), world)
      ensures fails ==> Faulted(old(Now()), Now())
    {
      Interfere();
      fails := *;
      if fails {
        ghost var s := Now();
        assert forall p :: Startable(world.(faults := world.faults + 1), p) == Startable(world, p);
        world := world.(faults := world.faults + 1);
        NextOn(old(Now()), s, Fault);
      }
    }

    method ReadSnapshot() returns (r: Option<Snapshot>)
      requires Valid()
      modifies this`world
      ensures Valid() && Leads(old(Now()), Now()) && Calm(old(world), world)
      ensures r.None? ==> Faulted(old(Now()), Now())
      ensures r.Some? ==> r.value == Snapshot(world.queue, world.settings)
    {
      var fails := Answer();
      r := if fails then None else Some(Snapshot(world.queue, world.settings));
    }

    /** `next_turn`: whose turn it is, which the worker then has in mind; or, when it is nobody's, whether any item waits. */
    method ReadNextTurn() returns (r: Option<NextTurn>)
      requires Valid() && hand.Surveying?
      modifies this`world, this`hand
      ensures Valid() && Leads(old(Now()), Now()) && Calm(old(world), world)
      ensures r.None? ==> Faulted(old(Now()), Now())
      ensures r.Some? && r.value.Ready? ==>
                && hand == Choosing(r.value.item, r.value.task, old(hand.settings), false)
                && r.value.item in world.items && world.items[r.value.item] == Item(r.value.task, Queued)
                && r.value.item !in parked && r.value.task !in world.waiting
                && FirstReady(world, parked, r.value.item)
      ensures !(r.Some? && r.value.Ready?) ==> hand.Free?
      ensures r.Some? && !r.value.Ready? ==>
                forall i :: i in world.items && world.items[i].state == Queued && i !in parked ==> world.items[i].task in world.waiting
      ensures r.Some? && r.value.Blocked? ==> exists i :: i in world.items && world.items[i].state == Queued
      ensures r.Some? && r.value.Empty? ==> forall i :: i in world.items ==> world.items[i].state != Queued
    {
      var fails := Answer();
      ghost var s := Now();
      if fails {
        hand := Free;
        NextOn(old(Now()), s, LetBe);
        return None;
      }
      ReachableInvariant(s);
      var turn := FirstInLine();
      if turn.Ready? {
        hand := Choosing(turn.item, turn.task, s.hand.settings, false);
        NextOn(old(Now()), s, Choose(turn.item));
      } else {
        hand := Free;
        NextOn(old(Now()), s, LetBe);
      }
      r := Some(turn);
    }

    method FirstInLine() returns (turn: NextTurn)
      requires InOrder(world)
      ensures turn.Ready? ==>
                && turn.item in world.items && world.items[turn.item] == Item(turn.task, Queued)
                && turn.item !in parked && turn.task !in world.waiting
                && FirstReady(world, parked, turn.item)
      ensures !turn.Ready? ==>
                forall i :: i in world.items && world.items[i].state == Queued && i !in parked ==> world.items[i].task in world.waiting
      ensures turn.Blocked? ==> exists i :: i in world.items && world.items[i].state == Queued
      ensures turn.Empty? ==> forall i :: i in world.items ==> world.items[i].state != Queued
    {
      var blocked := false;
      for k := 0 to |world.order|
        invariant forall j :: 0 <= j < k ==> !IsReady(world, parked, world.order[j])
        invariant blocked <==> exists j :: 0 <= j < k && world.items[world.order[j]].state == Queued
      {
        var item := world.order[k];
        if IsReady(world, parked, item) {
          return Ready(item, world.items[item].task);
        }
        if world.items[item].state == Queued {
          blocked := true;
        }
      }
      turn := if blocked then Blocked else Empty;
    }

    method ReadWork(task: Id) returns (r: WorkRead)
      requires Valid()
      modifies this`world
      ensures Valid() && Leads(old(Now()), Now()) && Calm(old(world), world)
      ensures r.ReadFailed? ==> Faulted(old(Now()), Now())
      ensures r.UnknownTask? ==> task in world.deleted
      ensures r.Read? ==> task !in world.deleted
    {
      var fails := Answer();
      var work: TaskWork := *;
      r := if fails then ReadFailed else if task in world.deleted then UnknownTask else Read(work);
    }

    /** `ceiling`: what the usage reading says to the ceiling, if one is set. */
    method ReadCeiling(settings: Settings) returns (v: UsageCeiling.Verdict)
      requires Valid()
      modifies this`world
      ensures Valid() && Leads(old(Now()), Now()) && Calm(old(world), world)
      ensures v.clear <==> !OverCeiling(settings, world.usage)
      ensures !v.clear ==> v.resumeAt.Some?
    {
      Interfere();
      if settings.ceiling.None? {
        return UsageCeiling.GO;
      }
      var now: int := *;
      v := UsageCeiling.Check(Some(world.usage), settings.ceiling, settings.model, now);
    }

    /** The same, for the item whose turn it is. */
    method CheckCeiling(settings: Settings) returns (clear: bool, usage: UsageCeiling.UsageView)
      requires Valid() && hand.Choosing? && hand.settings == settings
      modifies this`world, this`hand
      ensures Valid() && Leads(old(Now()), Now()) && Calm(old(world), world)
      ensures clear <==> !OverCeiling(settings, usage)
      ensures usage == world.usage && hand == old(hand).(clear := clear)
    {
      var v := ReadCeiling(settings);
      ghost var s := Now();
      clear, usage := v.clear, world.usage;
      hand := hand.(clear := v.clear);
      NextOn(old(Now()), s, CheckUsage);
    }

    // ---------------------------------------------------------------- writes

    method MarkItem(item: Id, outcome: ItemState) returns (ok: bool)
      requires Valid() && MayWrite(Now(), item, outcome)
      modifies this`world, this`hand
      ensures Valid() && Leads(old(Now()), Now()) && hand.Free?
      ensures Written(old(world), item, outcome, ok, world)
      ensures if ok then Marks(old(world), item, outcome, world) else Keeps(old(world), world) && Faulted(old(Now()), Now())
    {
      var fails := Answer();
      ghost var s := Now();
      ok := !fails;
      world := Mark(world, item, outcome, ok);
      hand := Free;
      NextOn(old(Now()), s, Write(item, outcome, ok));
    }

    /** `stop` and `recover_after_restart`. */
    method RequeueRunning(disarm: bool) returns (ok: bool)
      requires Valid() && hand.Ending? && active == []
      modifies this`world, this`hand
      ensures Valid() && Leads(old(Now()), Now()) && hand.Free?
      ensures if ok then WaitsAgain(old(world), world) else Keeps(old(world), world) && Faulted(old(Now()), Now())
      ensures ok ==> RunningItems(world) == {}
      ensures ok && disarm ==> world.queue.Idle?
      ensures !(ok && disarm) && old(world.queue.Armed?) ==> world.queue.Armed?
      ensures old(world.closed) == world.closed
    {
      var fails := Answer();
      ghost var s := Now();
      ok := !fails;
      var queue := if ok && disarm then Idle else world.queue;
      world := Requeue(world, ok).(queue := queue);
      hand := Free;
      NextOn(old(Now()), s, Requeued(ok, disarm));
    }

    /** `resume`: a scheduled or holding queue runs. */
    method ResumeQueue() returns (ok: bool)
      requires Valid() && hand.Free?
      modifies this`world
      ensures Valid() && Leads(old(Now()), Now()) && Keeps(old(world), world)
      ensures !ok ==> Faulted(old(Now()), Now())
      ensures ok && !old(world.queue.Idle?) ==> world.queue.Armed?
      ensures world.queue.Idle? ==> old(world.queue.Idle?)
    {
      var fails := Answer();
      ghost var s := Now();
      ok := !fails;
      if ok {
        world := Resumed(world);
        if s.world.queue.Scheduled? || s.world.queue.Holding? {
          NextOn(old(Now()), s, SetQueue(Armed));
        }
      }
    }

    /** `finish`: back to idle, unless an item arrived since. */
    method FinishQueue() returns (ok: bool)
      requires Valid() && hand.Free? && active == []
      modifies this`world
      ensures Valid() && Leads(old(Now()), Now()) && Keeps(old(world), world)
      ensures !ok ==> Faulted(old(Now()), Now())
      ensures ok && (forall i :: i in world.items ==> world.items[i].state != Queued) ==> world.queue.Idle?
      ensures (exists i :: i in world.items && world.items[i].state == Queued) && old(world.queue.Armed?) ==> world.queue.Armed?
    {
      var fails := Answer();
      ghost var s := Now();
      ok := !fails;
      NothingWaits(world);
      if ok {
        world := QueueFinished(world);
        if world.queue != s.world.queue {
          NextOn(old(Now()), s, SetQueue(Idle));
        }
      }
    }

    /** `stop_blocked`: nothing can start, so the queue is disarmed. */
    method StopBlocked() returns (ok: bool)
      requires Valid() && hand.Free? && active == []
      modifies this`world
      ensures Valid() && Leads(old(Now()), Now()) && Keeps(old(world), world)
      ensures if ok then world.queue.Idle? else Faulted(old(Now()), Now())
    {
      var fails := Answer();
      ghost var s := Now();
      ok := !fails;
      if ok {
        world := Disarmed(world);
        NextOn(old(Now()), s, SetQueue(Idle));
      }
    }

    /** `hold`: a queue that is not idle waits for the usage window to reset. */
    method HoldQueue() returns (ok: bool)
      requires Valid() && hand.Free? && active == []
      modifies this`world
      ensures Valid() && Leads(old(Now()), Now()) && Keeps(old(world), world)
      ensures !ok ==> Faulted(old(Now()), Now())
      ensures ok && !old(world.queue.Idle?) ==> world.queue.Holding?
      ensures world.queue.Idle? ==> old(world.queue.Idle?)
      ensures world.issued == old(world.issued)
    {
      var fails := Answer();
      ghost var s := Now();
      ok := !fails;
      if ok {
        world := Held(world);
        if !s.world.queue.Idle? {
          NextOn(old(Now()), s, SetQueue(Holding));
        }
      }
    }

    // ---------------------------------------------------------------- starting

    /** Leave the item whose turn it is waiting after all. */
    method LetItBe()
      requires Valid() && Filling(hand)
      modifies this`hand
      ensures Valid() && Leads(old(Now()), Now()) && hand.Free?
    {
      ghost var s := Now();
      hand := Free;
      NextIsReachable(s, LetBe);
    }

    /** Leave an item that cannot run with the reason as its state. */
    method Dismiss(item: Id, task: Id, outcome: ItemState) returns (ok: bool)
      requires Valid() && OnTurn(item, task)
      requires outcome == Failed || outcome == Skipped || (outcome == Queued && item in parked)
      modifies this`world, this`hand
      ensures Valid() && Leads(old(Now()), Now()) && hand.Free?
      ensures if ok then DismissedAs(old(Now()), Now(), item, outcome) && OutOfTheBacklog(old(Now()), Now(), item) else Faulted(old(Now()), Now())
    {
      ok := MarkItem(item, outcome);
      if ok {
        WrittenLeavesTheBacklog(old(world), item, outcome, world, parked);
      }
    }

    method Park(item: Id, task: Id) returns (ok: bool)
      requires Valid() && OnTurn(item, task)
      modifies this`world, this`hand, this`parked
      ensures Valid() && Leads(old(Now()), Now()) && hand.Free? && parked == old(parked) + {item}
      ensures if ok then PassedOverAs(old(Now()), Now(), item) && OutOfTheBacklog(old(Now()), Now(), item) else Faulted(old(Now()), Now())
    {
      ghost var s := Now();
      parked := parked + {item};
      NextIsReachable(s, RunQueueProtocol.Park);
      ghost var passed := Now();
      assert parked + {item} == parked;
      ok := Dismiss(item, task, Queued);
      LeadsOn(s, passed, Now());
    }

    /** Remember the session just opened under a generation of its own. */
    method Remember(item: Id, task: Id, terminal: Id, settledSteps: nat)
      requires Valid() && OnTurn(item, task) && terminal !in world.issued
      modifies this
      ensures Valid() && Leads(old(Now()), Now()) && Now() == After(old(Now()), Start(terminal, settledSteps))
    {
      ghost var s := Now();
      generation := generation + 1;
      active := active + [Active(generation, item, task, terminal, settledSteps, false, false)];
      hand, world := Starting(item), world.(issued := world.issued + {terminal});
      NextIsReachable(s, Start(terminal, settledSteps));
    }

    /** The session opened on the item: remember it, then mark the item running. */
    method Begin(item: Id, task: Id, terminal: Id, settledSteps: nat) returns (ok: bool)
      requires Valid() && OnTurn(item, task) && terminal !in world.issued
      modifies this
      ensures Valid() && Leads(old(Now()), Now()) && hand.Free?
      ensures if ok then TakenUpAs(old(Now()), Now(), item, task, terminal, settledSteps) && OutOfTheBacklog(old(Now()), Now(), item)
              else Faulted(old(Now()), Now())
    {
      Remember(item, task, terminal, settledSteps);
      ghost var s := Now();
      assert Startable(s.world, parked + {item}) == Startable(old(world), parked + {item});
      ok := MarkItem(item, Running);
      LeadsOn(old(Now()), s, Now());
      if ok {
        WrittenLeavesTheBacklog(s.world, item, Running, world, parked);
      }
    }

    /** Open a session on the item whose turn it is, or pass it over or dismiss it as the answers say. */
    method Launch(item: Id, task: Id, snapshot: Snapshot) returns (ok: bool, a: Answers)
      requires Valid() && OnTurn(item, task)
      modifies this
      ensures Valid() && Leads(old(Now()), Now()) && hand.Free?
      ensures if ok then Handled(old(Now()), Now(), item, task, a, snapshot.settings.parallel) && OutOfTheBacklog(old(Now()), Now(), item)
              else Faulted(old(Now()), Now())
    {
      var before := ReadWork(task);
      a := Answers(before, false, true, Refused);
      ghost var s := Now();
      if before.Read? && before.work.hasWork {
        ok, a := LaunchOn(item, task, snapshot, before);
      } else if before.ReadFailed? {
        LetItBe();
        ok := false;
      } else {
        ok := Dismiss(item, task, if before.UnknownTask? then Failed else Skipped);
      }
      LeadsOn(old(Now()), s, Now());
    }

    /** The rest of `launch`, on a task with work left: nobody else's terminal, a worktree where tasks run side by side, a terminal. */
    method LaunchOn(item: Id, task: Id, snapshot: Snapshot, before: WorkRead) returns (ok: bool, a: Answers)
      requires Valid() && OnTurn(item, task) && before.Read? && before.work.hasWork
      modifies this
      ensures Valid() && Leads(old(Now()), Now()) && hand.Free?
      ensures a.before == before
      ensures if ok then Handled(old(Now()), Now(), item, task, a, snapshot.settings.parallel) && OutOfTheBacklog(old(Now()), Now(), item)
              else Faulted(old(Now()), Now())
    {
      var occupied: bool, worktree: bool := *, *;
      a := Answers(before, occupied, worktree, Refused);
      if occupied {
        ok := Dismiss(item, task, Failed);
      } else if snapshot.settings.parallel > 1 && !worktree {
        ok := Park(item, task);
      } else {
        ok, a := LaunchIn(item, task, before, worktree);
      }
    }

    /** The terminal: opened, refused, or not to be had now. */
    method LaunchIn(item: Id, task: Id, before: WorkRead, worktree: bool) returns (ok: bool, a: Answers)
      requires Valid() && OnTurn(item, task) && before.Read? && before.work.hasWork
      modifies this
      ensures Valid() && Leads(old(Now()), Now()) && hand.Free?
      ensures a == Answers(before, false, worktree, a.opening)
      ensures a.opening.OpenFailed? ==> !ok && active == old(active) && generation == old(generation)
      ensures if ok then Handled(old(Now()), Now(), item, task, a, 1) && OutOfTheBacklog(old(Now()), Now(), item)
              else Faulted(old(Now()), Now())
    {
      var opening := OpenTerminal(task);
      ghost var s := Now();
      a := Answers(before, false, worktree, opening);
      match opening {
        case OpenFailed =>
          LetItBe();
          ok := false;
        case Refused =>
          ok := Dismiss(item, task, Failed);
        case Opened(terminal) =>
          ok := Begin(item, task, terminal, before.work.settledSteps);
      }
      LeadsOn(old(Now()), s, Now());
    }

    /** `open`: a terminal the worker never had before, a refusal, or a failure. */
    method OpenTerminal(task: Id) returns (r: Opening)
      requires Valid()
      modifies this`world
      ensures Valid() && Leads(old(Now()), Now()) && Calm(old(world), world)
      ensures r.Opened? ==> r.terminal !in world.issued
      ensures r.OpenFailed? ==> Faulted(old(Now()), Now())
    {
      var fails := Answer();
      var t: Id := *;
      var refused: bool := *;
      r := if fails then OpenFailed else if refused || t in world.issued then Refused else Opened(t);
    }

    /** `advance`: item after item is taken up, passed over or dismissed until a place or a candidate is lacking. */
    method Advance() returns (ok: bool, rest: Rest)
      requires Valid() && hand.Free?
      modifies this
      ensures Valid() && Leads(old(Now()), Now()) && hand.Free?
      ensures if ok then Rested(Now(), rest) else Faulted(old(Now()), Now())
    {
      var more;
      more, ok, rest := FillAPlace();
      while more
        invariant Valid() && hand.Free? && Leads(old(Now()), Now())
        invariant more || (if ok then Rested(Now(), rest) else Faulted(old(Now()), Now()))
        decreases if more then Backlog(world, parked) + 1 else 0
      {
        ghost var s := Now();
        more, ok, rest := FillAPlace();
        LeadsOn(old(Now()), s, Now());
      }
    }

    /** One round of `advance`. A round that is not the last shortens the backlog. */
    method FillAPlace() returns (more: bool, ok: bool, rest: Rest)
      requires Valid() && hand.Free?
      modifies this
      ensures Valid() && Leads(old(Now()), Now()) && hand.Free?
      ensures more || (if ok then Rested(Now(), rest) else Faulted(old(Now()), Now()))
      ensures more ==> Backlog(world, parked) < Backlog(old(world), old(parked))
    {
      var read := ReadSnapshot();
      if read.None? {
        return false, false, NotArmed;
      }
      var snapshot := read.value;
      if !snapshot.queue.Armed? {
        return false, true, NotArmed;
      }
      if |active| >= Places(snapshot.settings.parallel) {
        return false, true, Full;
      }
      ghost var s := Now();
      hand := Surveying(world.settings);
      NextOn(old(Now()), s, Survey);
      ghost var surveyed := Now();
      assert Backlog(surveyed.world, parked) <= Backlog(old(world), parked);
      more, ok, rest := FillWith(snapshot);
      LeadsOn(old(Now()), surveyed, Now());
    }

    method FillWith(snapshot: Snapshot) returns (more: bool, ok: bool, rest: Rest)
      requires Valid() && hand == Surveying(snapshot.settings)
      modifies this
      ensures Valid() && Leads(old(Now()), Now()) && hand.Free?
      ensures more || (if ok then Rested(Now(), rest) else Faulted(old(Now()), Now()))
      ensures more ==> Backlog(world, parked) < Backlog(old(world), old(parked))
    {
      var turn := ReadNextTurn();
      if turn.None? {
        return false, false, NotArmed;
      }
      ghost var s := Now();
      match turn.value {
        case Ready(item, task) =>
          var usage, a;
          more, ok, usage, a := TakeUp(item, task, snapshot);
          rest := AtCeiling(snapshot.settings, usage);
        case _ =>
          more, rest := false, NothingToStart;
          ok := RestUnstarted(turn.value.Blocked?);
      }
      LeadsOn(old(Now()), s, Now());
    }

    /** Nothing may start: with no session running, the queue finishes or stops as blocked. */
    method RestUnstarted(blocked: bool) returns (ok: bool)
      requires Valid() && hand.Free?
      modifies this
      ensures Valid() && Leads(old(Now()), Now()) && hand.Free? && active == old(active)
      ensures active != [] ==> ok && unchanged(this)
      ensures active == [] && ok && blocked ==> world.queue.Idle? && parked == {}
      ensures active == [] && ok && !blocked ==> world.queue.Idle? || Startable(world, {}) != {}
      ensures !ok ==> Faulted(old(Now()), Now())
    {
      ok := true;
      LeadsToItself(Now());
      if active == [] {
        if blocked {
          ok := StopBlocked();
          if ok {
            ghost var s := Now();
            Unpark();
            LeadsOn(old(Now()), s, Now());
          }
        } else {
          ok := FinishQueue();
          NothingWaits(world);
        }
      }
    }

    /**
     An item may start. Over the ceiling it does not: nothing changes hands, and with no session running the queue holds. Otherwise it
     is launched.
     */
    method TakeUp(item: Id, task: Id, snapshot: Snapshot) returns (more: bool, ok: bool, usage: UsageCeiling.UsageView, a: Answers)
      requires Valid() && hand == Choosing(item, task, snapshot.settings, false) && item in Startable(world, parked)
      modifies this
      ensures Valid() && Leads(old(Now()), Now()) && hand.Free?
      ensures exists b :: Leads(old(Now()), b) && Leads(b, Now()) && b.world.usage == usage
      ensures OverCeiling(snapshot.settings, usage) ==>
                && !more && active == old(active) && generation == old(generation) && parked == old(parked)
                && world.issued == old(world.issued)
                && (ok && active == [] ==> world.queue.Holding?)
      ensures !OverCeiling(snapshot.settings, usage) ==>
                more == ok && (ok ==> Handled(old(Now()), Now(), item, task, a, snapshot.settings.parallel))
      ensures more ==> Backlog(world, parked) < Backlog(old(world), old(parked))
      ensures !ok ==> Faulted(old(Now()), Now())
    {
      TakingUpShortens(world, parked, item);
      a := Answers(ReadFailed, false, true, Refused);
      var clear;
      clear, usage := CheckCeiling(snapshot.settings);
      ghost var s := Now();
      if clear {
        ok, a := Launch(item, task, snapshot);
        more := ok;
      } else {
        more := false;
        ok := HoldOff();
      }
      LeadsOn(old(Now()), s, Now());
    }

    /** Over the ceiling the item waits on, and with no session running the queue holds. */
    method HoldOff() returns (ok: bool)
      requires Valid() && hand.Choosing?
      modifies this`world, this`hand
      ensures Valid() && Leads(old(Now()), Now()) && hand.Free? && world.issued == old(world.issued)
      ensures ok && active == [] ==> world.queue.Holding?
      ensures !ok ==> Faulted(old(Now()), Now())
    {
      ReachableInvariant(Now());
      LetItBe();
      ok := true;
      if active == [] {
        ghost var s := Now();
        ok := HoldQueue();
        LeadsOn(old(Now()), s, Now());
      }
    }

    method Unpark()
      requires Valid() && active == []
      modifies this`parked
      ensures Valid() && Leads(old(Now()), Now()) && parked == {}
    {
      ghost var s := Now();
      parked := {};
      NextIsReachable(s, RunQueueProtocol.Unpark);
    }

    // ---------------------------------------------------------------- sessions in hand

    method IndexOf(g: nat) returns (at: Option<nat>)
      ensures at.Some? ==> at.value < |active| && active[at.value].generation == g
      ensures at.None? ==> !Holds(active, g)
    {
      for k := 0 to |active|
        invariant forall j :: 0 <= j < k ==> active[j].generation != g
      {
        if active[k].generation == g {
          return Some(k);
        }
      }
      at := None;
    }

    method IndexOfTask(task: Id) returns (at: Option<nat>)
      ensures at.Some? ==> at.value < |active| && IsFirstOn(active, task, at.value)
      ensures at.None? ==> forall j :: 0 <= j < |active| ==> active[j].task != task
    {
      for k := 0 to |active|
        invariant forall j :: 0 <= j < k ==> active[j].task != task
      {
        if active[k].task == task {
          return Some(k);
        }
      }
      at := None;
    }

    method IndexOfTerminal(terminal: Id) returns (at: Option<nat>)
      ensures at.Some? ==> at.value < |active| && active[at.value].terminal == terminal
      ensures at.None? ==> !HasTerminal(active, terminal)
    {
      for k := 0 to |active|
        invariant forall j :: 0 <= j < k ==> active[j].terminal != terminal
      {
        if active[k].terminal == terminal {
          return Some(k);
        }
      }
      at := None;
    }

    /** `forget`: the session's place is free again. */
    method Forget(at: nat, why: Why) returns (gone: Active)
      requires Valid() && Enabled(Now(), Drop(at, why))
      modifies this
      ensures Valid() && Leads(old(Now()), Now()) && Now() == After(old(Now()), Drop(at, why)) && gone == old(active[at])
      ensures !Holds(active, gone.generation) && !HasTerminal(active, gone.terminal) && gone.generation <= generation
      ensures gone.terminal in world.issued
      ensures !why.TerminalGone? ==> gone.terminal !in world.lost
    {
      ghost var s := Now();
      DroppedIsLetGo(s, at, why);
      gone := active[at];
      active := Without(active, at);
      var shut := if why.RenewalFailed? && why.closed then {gone.terminal} else {};
      world := world.(closed := world.closed + shut, ended := world.ended + shut,
                      lost := if why.TerminalGone? then world.lost + {gone.terminal} else world.lost);
      hand := if why.TaskDeleted? then Free else Ending({gone.item});
      NextIsReachable(s, Drop(at, why));
    }

    /** `close_session`: the terminal is closed, and the steps its session was at are open again. */
    method CloseSession(gone: Active)
      requires Valid() && gone.terminal in world.issued && gone.terminal !in world.lost && !HasTerminal(active, gone.terminal)
      modifies this`world
      ensures Valid() && Leads(old(Now()), Now()) && gone.terminal in world.closed && Keeps(old(world), world)
      ensures world.issued == old(world.issued) && world.lost == old(world.lost) && old(world.closed) <= world.closed
      ensures old(world.queue.Armed?) ==> world.queue.Armed?
    {
      Interfere();
      ghost var s := Now();
      world := world.(closed := world.closed + {gone.terminal}, ended := world.ended + {gone.terminal});
      NextOn(old(Now()), s, Close(gone.terminal));
    }

    /** The item let go gets its outcome, and its place is filled. */
    method RecordAndAdvance(item: Id, outcome: ItemState) returns (ok: bool, rest: Rest)
      requires Valid() && hand == Ending({item}) && outcome.Settled()
      modifies this
      ensures Valid() && Leads(old(Now()), Now()) && hand.Free?
      ensures if ok then Rested(Now(), rest) else Faulted(old(Now()), Now())
      ensures ok && world.intact && item in world.items ==> world.items[item].state == outcome
    {
      ghost var let := Now();
      rest := NotArmed;
      if world.intact {
        EndingIsKnown(let);
      }
      ok := MarkItem(item, outcome);
      ghost var s := Now();
      if ok {
        ok, rest := Advance();
        LeadsOn(let, s, Now());
        LeadsIsLater(s, Now());
      }
    }

    /** Take the session out of hand at the end of its grace, and close its terminal. */
    method EndSession(at: nat) returns (gone: Active)
      requires Valid() && at < |active| && hand == Due(active[at].generation)
      modifies this
      ensures Valid() && Leads(old(Now()), Now()) && gone == old(active[at]) && active == Without(old(active), at)
      ensures hand == Ending({gone.item})
      ensures gone.generation <= generation && !Holds(active, gone.generation)
      ensures gone.terminal in world.closed && world.queue.Armed?
    {
      ReachableInvariant(Now());
      gone := Forget(at, Why.Settled);
      ghost var s := Now();
      CloseSession(gone);
      LeadsOn(old(Now()), s, Now());
    }

    /** At the end of the grace: the session goes, its item is recorded, and its place is filled. */
    method Settle(g: nat, outcome: ItemState) returns (ok: bool, rest: Rest)
      requires Valid() && hand == Due(g) && outcome.Settled()
      modifies this
      ensures Valid() && Leads(old(Now()), Now()) && hand.Free?
      ensures SettledAs(old(Now()), Now(), g, outcome, ok, rest)
      ensures !ok ==> Faulted(old(Now()), Now())
    {
      rest := NotArmed;
      UniqueGenerations(Now());
      var at := IndexOf(g);
      if at.None? {
        DropStale();
        return true, rest;
      }
      var gone := EndSession(at.value);
      ghost var s := Now();
      ok, rest := RecordAndAdvance(gone.item, outcome);
      LeadsOn(old(Now()), s, Now());
      LeadsIsLater(s, Now());
    }

    /** A delayed command for a session no longer in hand changes nothing. */
    method DropStale()
      requires Valid() && hand.Due? && !Holds(active, hand.generation)
      modifies this`hand
      ensures Valid() && Leads(old(Now()), Now()) && hand.Free?
    {
      ghost var s := Now();
      hand := Free;
      NextIsReachable(s, Stale);
    }

    /** Over the ceiling at a claim, once the grace is over: the session goes and its item waits again. */
    method Pause(g: nat) returns (ok: bool)
      requires Valid() && hand == Due(g)
      modifies this
      ensures Valid() && Leads(old(Now()), Now()) && hand.Free?
      ensures PausedAs(old(Now()), Now(), g, ok)
      ensures !ok ==> Faulted(old(Now()), Now())
    {
      UniqueGenerations(Now());
      var at := IndexOf(g);
      if at.None? {
        DropStale();
        return true;
      }
      var gone := EndSession(at.value);
      ghost var s := Now();
      ok := WaitAgain(gone.item);
      LeadsOn(old(Now()), s, Now());
      LeadsIsLater(s, Now());
    }

    /** The item let go waits again, and with no session left the queue holds. */
    method WaitAgain(item: Id) returns (ok: bool)
      requires Valid() && hand == Ending({item}) && world.queue.Armed?
      modifies this`world, this`hand
      ensures Valid() && Leads(old(Now()), Now()) && hand.Free?
      ensures ok && world.intact && item in world.items ==> world.items[item].state == Queued
      ensures ok && active == [] ==> world.queue.Holding?
      ensures !ok ==> Faulted(old(Now()), Now())
    {
      if world.intact {
        EndingIsKnown(Now());
      }
      ok := MarkItem(item, Queued);
      if ok && active == [] {
        ghost var s := Now();
        ok := HoldQueue();
        LeadsOn(old(Now()), s, Now());
        LeadsIsLater(s, Now());
      }
    }

    /** A terminal is no longer live. */
    method SessionEnded(terminal: Id) returns (ok: bool, left: WorkRead, rest: Rest)
      requires Valid() && hand.Free? && terminal in world.ended
      modifies this
      ensures Valid() && Leads(old(Now()), Now()) && hand.Free?
      ensures WentAwayAs(old(Now()), Now(), terminal, ok, left, rest)
      ensures !ok ==> Faulted(old(Now()), Now())
    {
      left, rest := ReadFailed, NotArmed;
      LeadsToItself(Now());
      UniqueTerminals(Now());
      var at := IndexOfTerminal(terminal);
      if at.None? || active[at.value].closing {
        return true, left, rest;
      }
      ok, left, rest := GiveUp(at.value);
    }

    method GiveUp(at: nat) returns (ok: bool, left: WorkRead, rest: Rest)
      requires Valid() && hand.Free? && at < |active| && !active[at].closing && active[at].terminal in world.ended
      modifies this
      ensures Valid() && Leads(old(Now()), Now()) && hand.Free?
      ensures !Holds(active, old(active[at]).generation) && old(active[at]).terminal in world.lost
      ensures if ok then Rested(Now(), rest) else Faulted(old(Now()), Now())
      ensures ok && world.intact && old(active[at]).item in world.items ==> CameTo(world.items[old(active[at]).item].state, left)
    {
      var gone := Forget(at, TerminalGone);
      ghost var s := Now();
      left := ReadWork(gone.task);
      ghost var s' := Now();
      var outcome := if left.Read? && !left.work.hasWork then Finished else Failed;
      ok, rest := RecordAndAdvance(gone.item, outcome);
      LeadsOn(s, s', Now());
      LeadsOn(old(Now()), s, Now());
      LeadsIsLater(s, Now());
    }

    /** `mark_closing` and `later`: the session ends after the grace. */
    method DecideToEnd(at: nat, command: Command)
      requires Valid() && Enabled(Now(), Decide(at, command))
      modifies this
      ensures Valid() && Leads(old(Now()), Now()) && Now() == After(old(Now()), Decide(at, command))
    {
      ghost var s := Now();
      active := active[at := active[at].(closing := true)];
      world := world.(inFlight := world.inFlight + [command]);
      NextIsReachable(s, Decide(at, command));
    }

    method NoteOn(at: nat, settledSteps: nat, waiting: bool)
      requires Valid() && hand.Free? && at < |active|
      modifies this`active
      ensures Valid() && Leads(old(Now()), Now())
      ensures active == old(active)[at := old(active[at]).(settledSteps := settledSteps, waiting := waiting)]
    {
      ghost var s := Now();
      active := active[at := active[at].(settledSteps := settledSteps, waiting := waiting)];
      NextIsReachable(s, Note(at, settledSteps, waiting));
    }

    /** Something moved on a task: the first session in hand on it is looked at. */
    method Review(task: Id) returns (ok: bool, did: Reviewed, sight: Sight)
      requires Valid() && hand.Free?
      modifies this
      ensures Valid() && Leads(old(Now()), Now()) && hand.Free?
      ensures LookedAs(old(Now()), Now(), task, ok, did, sight)
      ensures !ok ==> Faulted(old(Now()), Now())
    {
      sight := Sight(ReadFailed, NO_SETTINGS, NO_USAGE);
      LeadsToItself(Now());
      var at := IndexOfTask(task);
      if at.None? || active[at.value].closing {
        return true, NotInHand, sight;
      }
      ok, did, sight := LookInto(at.value);
      LookedAtTheFirst(old(Now()), Now(), task, at.value, ok, did, sight);
    }

    method LookInto(at: nat) returns (ok: bool, did: Reviewed, sight: Sight)
      requires Valid() && hand.Free? && at < |active| && !active[at].closing
      modifies this
      ensures Valid() && Leads(old(Now()), Now()) && hand.Free? && !did.NotInHand?
      ensures if ok then LookedAtAs(old(Now()), Now(), at, did, sight) else Faulted(old(Now()), Now())
    {
      var read := ReadWork(active[at].task);
      sight := Sight(read, NO_SETTINGS, NO_USAGE);
      ghost var s := Now();
      match read {
        case ReadFailed => return false, GoesOn, sight;
        case UnknownTask =>
          ok := AbandonAt(at);
          did := LetGo;
        case Read(now) =>
          ok, did, sight := Look(at, now);
      }
      LeadsOn(old(Now()), s, Now());
      if ok && sight.read.Read? && sight.read.work.hasWork && sight.read.work.settledSteps > old(active[at]).settledSteps {
        LeadsToItself(Now());
        SeenWithin(old(Now()), s, Now(), Now(), sight.settings, sight.usage);
      }
    }

    /** The session on a task that was deleted is closed, and its place filled. */
    method AbandonAt(at: nat) returns (ok: bool)
      requires Valid() && hand.Free? && at < |active| && !active[at].closing && active[at].task in world.deleted
      modifies this
      ensures Valid() && Leads(old(Now()), Now()) && hand.Free? && !Holds(active, old(active[at]).generation)
      ensures old(active[at]).terminal in world.closed
      ensures if ok then exists rest :: Rested(Now(), rest) else Faulted(old(Now()), Now())
    {
      var gone := Forget(at, TaskDeleted);
      ghost var s := Now();
      CloseSession(gone);
      ghost var s' := Now();
      var rest;
      ok, rest := Advance();
      LeadsOn(s, s', Now());
      LeadsOn(old(Now()), s, Now());
      LeadsIsLater(s, Now());
      LeadsIsLater(s', Now());
    }

    /** A look at a task that is still there, with what it has left. */
    method Look(at: nat, now: TaskWork) returns (ok: bool, did: Reviewed, sight: Sight)
      requires Valid() && hand.Free? && at < |active| && !active[at].closing
      modifies this
      ensures Valid() && Leads(old(Now()), Now()) && hand.Free? && did != LetGo && did != NotInHand && sight.read == Read(now)
      ensures if ok then LookedAtAs(old(Now()), Now(), at, did, sight) else Faulted(old(Now()), Now())
    {
      var current := active[at];
      sight := Sight(Read(now), NO_SETTINGS, NO_USAGE);
      LeadsToItself(Now());
      if !now.hasWork {
        DecideToEnd(at, Command.Settle(current.generation, Finished));
        return true, WillSettle, sight;
      }
      if now.settledSteps > current.settledSteps {
        ok, did, sight := LookAtClaim(at, now);
      } else {
        ok, did := RenewIfSpent(at, now);
      }
    }

    method RenewIfSpent(at: nat, now: TaskWork) returns (ok: bool, did: Reviewed)
      requires Valid() && hand.Free? && at < |active| && !active[at].closing
      modifies this`world
      ensures Valid() && Leads(old(Now()), Now()) && ok
      ensures if now.spent then did.WillRenew? && Command.Renew(active[at].generation) in world.inFlight else did.GoesOn?
    {
      ok, did := true, GoesOn;
      LeadsToItself(Now());
      if now.spent {
        AskToRenew(at);
        did := WillRenew;
      }
    }

    /** A step was claimed: a boundary at which the usage is read again. */
    method LookAtClaim(at: nat, now: TaskWork) returns (ok: bool, did: Reviewed, sight: Sight)
      requires Valid() && hand.Free? && at < |active| && !active[at].closing && now.settledSteps > active[at].settledSteps
      modifies this
      ensures Valid() && Leads(old(Now()), Now()) && hand.Free? && (did.WillPause? || did.WillRenew? || did.GoesOn?)
      ensures sight.read == Read(now)
      ensures active == old(active)[at := old(active[at]).(settledSteps := now.settledSteps, closing := did.WillPause?)]
      ensures !ok ==> Faulted(old(Now()), Now())
      ensures ok ==> Seen(old(Now()), Now(), sight.settings, sight.usage)
      ensures ok ==>
                if OverCeiling(sight.settings, sight.usage) then did.WillPause? && Command.Pause(old(active[at]).generation) in world.inFlight
                else if now.spent then did.WillRenew? && Command.Renew(old(active[at]).generation) in world.inFlight
                else did.GoesOn?
    {
      NoteOn(at, now.settledSteps, active[at].waiting);
      ghost var noted := Now();
      sight := Sight(Read(now), NO_SETTINGS, NO_USAGE);
      var snapshot := ReadSnapshot();
      LeadsOn(old(Now()), noted, Now());
      if snapshot.None? {
        return false, GoesOn, sight;
      }
      ghost var s := Now();
      var usage;
      ok := true;
      did, usage := PauseIfOver(at, snapshot.value.settings, now);
      sight := Sight(Read(now), snapshot.value.settings, usage);
      LeadsOn(old(Now()), s, Now());
      ghost var b :| Leads(s, b) && Leads(b, Now()) && b.world.usage == usage;
    }

    method PauseIfOver(at: nat, settings: Settings, now: TaskWork) returns (did: Reviewed, usage: UsageCeiling.UsageView)
      requires Valid() && hand.Free? && at < |active| && !active[at].closing
      modifies this
      ensures Valid() && Leads(old(Now()), Now()) && hand.Free?
      ensures exists b :: Leads(old(Now()), b) && Leads(b, Now()) && b.world.usage == usage
      ensures active == old(active)[at := old(active[at]).(closing := did.WillPause?)]
      ensures if OverCeiling(settings, usage) then did.WillPause? && Command.Pause(old(active[at]).generation) in world.inFlight
              else if now.spent then did.WillRenew? && Command.Renew(old(active[at]).generation) in world.inFlight
              else did.GoesOn?
    {
      var verdict := ReadCeiling(settings);
      usage := world.usage;
      ghost var s := Now();
      if !verdict.clear {
        DecideToEnd(at, Command.Pause(active[at].generation));
        did := WillPause;
      } else {
        var ok;
        ok, did := RenewIfSpent(at, now);
      }
      LeadsOn(old(Now()), s, Now());
    }

    method AskToRenew(at: nat)
      requires Valid() && Enabled(Now(), AskRenew(at))
      modifies this`world
      ensures Valid() && Leads(old(Now()), Now()) && Command.Renew(active[at].generation) in world.inFlight
    {
      ghost var s := Now();
      world := world.(inFlight := world.inFlight + [Command.Renew(active[at].generation)]);
      NextIsReachable(s, AskRenew(at));
    }

    /** The item goes on in a new terminal, if the session in the old one is still at its end now that the grace is over. */
    method Renew(g: nat) returns (ok: bool, read: WorkRead, opening: Opening, rest: Rest)
      requires Valid() && hand.Free?
      modifies this
      ensures Valid() && Leads(old(Now()), Now()) && hand.Free?
      ensures RenewedAs(old(Now()), Now(), g, ok, read, opening, rest)
      ensures !ok ==> Faulted(old(Now()), Now()) || read.UnknownTask?
    {
      ok, read, opening, rest := true, ReadFailed, Refused, NotArmed;
      LeadsToItself(Now());
      UniqueGenerations(Now());
      var at := IndexOf(g);
      if at.None? || active[at.value].closing {
        return;
      }
      var k := at.value;
      read := ReadWork(active[k].task);
      ok := read.Read?;
      if !read.Read? || !read.work.spent {
        return;
      }
      ghost var s := Now();
      ok, opening, rest := Follow(k);
      LeadsOn(old(Now()), s, Now());
    }

    method Follow(at: nat) returns (ok: bool, opening: Opening, rest: Rest)
      requires Valid() && hand.Free? && at < |active| && !active[at].closing
      modifies this
      ensures Valid() && Leads(old(Now()), Now()) && hand.Free?
      ensures FollowedAs(old(Now()), Now(), at, ok, opening, rest)
      ensures !ok ==> Faulted(old(Now()), Now())
    {
      rest := NotArmed;
      SetClosing(at);
      ghost var s := Now();
      opening := OpenTerminal(active[at].task);
      LeadsOn(old(Now()), s, Now());
      ghost var s' := Now();
      if opening.Opened? {
        ok := true;
        Replace(at, opening.terminal);
      } else {
        ok, rest := LoseIt(at);
      }
      LeadsOn(old(Now()), s', Now());
    }

    /** No terminal followed: the session is let go and its item failed. */
    method LoseIt(at: nat) returns (ok: bool, rest: Rest)
      requires Valid() && at < |active| && hand == Renewing(active[at].generation)
      modifies this
      ensures Valid() && Leads(old(Now()), Now()) && hand.Free? && !Holds(active, old(active[at]).generation)
      ensures if ok then Rested(Now(), rest) else Faulted(old(Now()), Now())
      ensures ok && world.intact && old(active[at]).item in world.items ==> world.items[old(active[at]).item].state == Failed
    {
      var closed: bool := *;
      var gone := Forget(at, RenewalFailed(closed));
      ghost var s := Now();
      ok, rest := RecordAndAdvance(gone.item, Failed);
      LeadsOn(old(Now()), s, Now());
      LeadsIsLater(s, Now());
    }

    method SetClosing(at: nat)
      requires Valid() && Enabled(Now(), BeginRenew(at))
      modifies this
      ensures Valid() && Leads(old(Now()), Now()) && Now() == After(old(Now()), BeginRenew(at))
    {
      ghost var s := Now();
      active := active[at := active[at].(closing := true)];
      hand := Renewing(active[at].generation);
      NextIsReachable(s, BeginRenew(at));
    }

    method Replace(at: nat, terminal: Id)
      requires Valid() && Enabled(Now(), Renewed(at, terminal))
      modifies this
      ensures Valid() && Leads(old(Now()), Now()) && Now() == After(old(Now()), Renewed(at, terminal))
    {
      ghost var s := Now();
      var previous := active[at].terminal;
      active := active[at := active[at].(terminal := terminal, closing := false)];
      world := world.(issued := world.issued + {terminal}, closed := world.closed + {previous}, ended := world.ended + {previous});
      hand := Free;
      NextIsReachable(s, Renewed(at, terminal));
    }

    /** The entry is marked as the terminal shows it: `waiting` for an answer to a permission prompt, or not. */
    method NotePermissionWait(g: nat) returns (ok: bool, waiting: bool)
      requires Valid() && hand.Free?
      modifies this
      ensures Valid() && Leads(old(Now()), Now()) && hand.Free?
      ensures !Holds(old(active), g) ==> ok && Now() == old(Now())
      ensures forall k :: 0 <= k < |old(active)| && old(active[k]).generation == g ==>
                active == old(active)[k := old(active[k]).(waiting := waiting)]
      ensures !ok ==> Faulted(old(Now()), Now())
    {
      waiting := *;
      LeadsToItself(Now());
      UniqueGenerations(Now());
      var at := IndexOf(g);
      if at.None? || waiting == active[at.value].waiting {
        return true, waiting;
      }
      var k := at.value;
      NoteOn(k, active[k].settledSteps, waiting);
      assert active[k].item in ActiveItems(active);
      ghost var s := Now();
      ok := MarkItem(active[k].item, Running);
      LeadsOn(old(Now()), s, Now());
    }

    /** Resume the queue when it is time, look at every session, and fill the places. */
    method Tick() returns (ok: bool, rest: Rest)
      requires Valid() && hand.Free?
      modifies this
      ensures Valid() && Leads(old(Now()), Now()) && hand.Free?
      ensures if ok then TickedAs(old(Now()), Now(), rest) else Faulted(old(Now()), Now())
    {
      ReachableInvariant(Now());
      rest := NotArmed;
      var read := ReadSnapshot();
      ghost var s := Now();
      if read.None? {
        return false, rest;
      }
      if read.value.queue.Idle? {
        return true, rest;
      }
      if !read.value.queue.Armed? {
        var early: bool := *; // before the start time, or before the hold is over
        if early {
          return true, rest;
        }
        ok := ResumeQueue();
        LeadsOn(old(Now()), s, Now());
        if !ok {
          return;
        }
      }
      ghost var s' := Now();
      ok, rest := LookAndAdvance();
      LeadsOn(old(Now()), s', Now());
    }

    method LookAndAdvance() returns (ok: bool, rest: Rest)
      requires Valid() && hand.Free?
      modifies this
      ensures Valid() && Leads(old(Now()), Now()) && hand.Free?
      ensures if ok then TickedAs(old(Now()), Now(), rest) else Faulted(old(Now()), Now())
    {
      rest := NotArmed;
      UniqueTerminals(Now());
      ok := LookAtAll(active);
      if ok {
        ghost var s := Now();
        ok, rest := Advance();
        LeadsOn(old(Now()), s, Now());
        LeadsIsLater(old(Now()), s);
        LeadsIsLater(s, Now());
      }
    }

    /** Each session as it was when the tick came. */
    method LookAtAll(sessions: seq<Active>) returns (ok: bool)
      requires Valid() && hand.Free? && forall k :: 0 <= k < |sessions| ==> sessions[k].terminal in world.issued
      modifies this
      ensures Valid() && Leads(old(Now()), Now()) && hand.Free?
      ensures ok ==> forall k :: 0 <= k < |sessions| && !sessions[k].closing && sessions[k].terminal in old(world.ended) ==>
                       !HasOpen(active, sessions[k].terminal)
      ensures !ok ==> Faulted(old(Now()), Now())
    {
      LeadsToItself(Now());
      for k := 0 to |sessions|
        invariant Valid() && hand.Free? && Leads(old(Now()), Now())
        invariant forall j :: 0 <= j < k && !sessions[j].closing && sessions[j].terminal in old(world.ended) ==>
                    !HasOpen(active, sessions[j].terminal)
      {
        ghost var s := Now();
        LeadsIsLater(old(Now()), s);
        var gone, did, sight;
        ghost var found, mid;
        ok, gone, did, sight, found, mid := LookAt(sessions[k]);
        LeadsIsLater(s, Now());
        LeadsOn(old(Now()), s, Now());
        if !ok {
          return;
        }
      }
      ok := true;
    }

    /**
     One session as it was when the tick came: given up when its terminal is `gone`, otherwise looked at, from `found` to
     `mid`, and then marked.
     */
    method LookAt(session: Active) returns (ok: bool, gone: bool, did: Reviewed, sight: Sight, ghost found: State, ghost mid: State)
      requires Valid() && hand.Free? && session.terminal in world.issued
      modifies this
      ensures Valid() && Leads(old(Now()), Now()) && hand.Free?
      ensures !ok ==> Faulted(old(Now()), Now())
      ensures gone ==> !session.closing && !HasOpen(active, session.terminal)
      ensures !session.closing && session.terminal in old(world.ended) ==> gone
      ensures !gone && ok ==>
                && found.active == old(active) && LookedAs(found, mid, session.task, true, did, sight)
                && (!Holds(mid.active, session.generation) ==> active == mid.active)
                && (forall k :: 0 <= k < |mid.active| && mid.active[k].generation == session.generation ==>
                      exists waiting :: active == mid.active[k := mid.active[k].(waiting := waiting)])
    {
      Interfere();
      did, sight := NotInHand, Sight(ReadFailed, NO_SETTINGS, NO_USAGE);
      ghost var s := Now();
      found, mid := s, s;
      gone := !session.closing && session.terminal in world.ended;
      if gone {
        ok := GiveUpOn(session.terminal);
      } else {
        ok, did, sight := Review(session.task);
        mid := Now();
        if ok {
          var waiting;
          ok, waiting := NotePermissionWait(session.generation);
          LeadsOn(s, mid, Now());
        }
      }
      LeadsOn(old(Now()), s, Now());
    }

    /** Whoever is open in a terminal that is gone is given up. */
    method GiveUpOn(terminal: Id) returns (ok: bool)
      requires Valid() && hand.Free? && terminal in world.ended && terminal in world.issued
      modifies this
      ensures Valid() && Leads(old(Now()), Now()) && hand.Free? && !HasOpen(active, terminal)
      ensures !ok ==> Faulted(old(Now()), Now())
    {
      var left, rest;
      ok, left, rest := SessionEnded(terminal);
      LeadsIsLater(old(Now()), Now());
      UniqueTerminals(Now());
    }

    /** Stopped from the console: every session is closed, and every running item waits again. */
    method Stop() returns (ok: bool)
      requires Valid() && hand.Free?
      modifies this
      ensures Valid() && Leads(old(Now()), Now()) && hand.Free?
      ensures StoppedAs(old(Now()), Now(), ok)
      ensures !ok ==> Faulted(old(Now()), Now())
    {
      var stopping := active;
      LetGoOfAll();
      ghost var s := Now();
      CloseAll(stopping);
      LeadsOn(old(Now()), s, Now());
      ghost var s' := Now();
      Unpark();
      LeadsOn(old(Now()), s', Now());
      ghost var s'' := Now();
      ok := RequeueRunning(true);
      LeadsOn(old(Now()), s'', Now());
    }

    method LetGoOfAll()
      requires Valid() && hand.Free?
      modifies this
      ensures Valid() && Leads(old(Now()), Now()) && active == [] && hand.Ending? && world == old(world)
      ensures forall k :: 0 <= k < |old(active)| ==> old(active[k]).terminal in world.issued && old(active[k]).terminal !in world.lost
    {
      ghost var s := Now();
      UniqueTerminals(s);
      hand := Ending(ActiveItems(active));
      active := [];
      NextIsReachable(s, LetAllGo);
    }

    method CloseAll(stopping: seq<Active>)
      requires Valid() && active == [] && hand.Ending?
      requires forall k :: 0 <= k < |stopping| ==> stopping[k].terminal in world.issued && stopping[k].terminal !in world.lost
      modifies this`world
      ensures Valid() && Leads(old(Now()), Now()) && Keeps(old(world), world)
      ensures forall k :: 0 <= k < |stopping| ==> stopping[k].terminal in world.closed
    {
      LeadsToItself(Now());
      ItemsListedAreKnown(Now());
      for i := 0 to |stopping|
        invariant Valid() && Leads(old(Now()), Now()) && world.issued == old(world.issued) && world.lost == old(world.lost)
        invariant Keeps(old(world), world)
        invariant forall k :: 0 <= k < i ==> stopping[k].terminal in world.closed
      {
        ghost var s := Now();
        CloseSession(stopping[i]);
        LeadsOn(old(Now()), s, Now());
      }
    }

    // ---------------------------------------------------------------- commands

    /** One command, taken from those in flight in whatever order they arrive. A failed decision is left at that. */
    method Handle(at: nat) returns (d: Decision)
      requires Valid() && hand.Free? && at < |world.inFlight|
      modifies this
      ensures Valid() && Leads(old(Now()), Now()) && hand.Free?
      ensures Dispatched(old(world.inFlight[at]), After(old(Now()), Deliver(at)), Now(), d)
      ensures !d.ok ==> Faulted(old(Now()), Now()) || (d.Followed? && d.read.UnknownTask?)
    {
      var command := Take(at);
      ghost var s := Now();
      d := DecideOn(command);
      LeadsOn(old(Now()), s, Now());
    }

    method DecideOn(command: Command) returns (d: Decision)
      requires Valid() && hand == (if command.Settle? || command.Pause? then Due(command.generation) else Free)
      requires command.SessionEnded? ==> command.terminal in world.ended
      requires command.Settle? ==> command.outcome == Finished
      modifies this
      ensures Valid() && Leads(old(Now()), Now()) && hand.Free?
      ensures Dispatched(command, old(Now()), Now(), d)
      ensures !d.ok ==> Faulted(old(Now()), Now()) || (d.Followed? && d.read.UnknownTask?)
    {
      match command {
        case Tick =>
          var ok, rest := Tick();
          d := Ticked(ok, rest);
        case Review(task) => // announcing the queue first changes nothing
          var ok, did, sight := Review(task);
          d := Looked(ok, did, sight);
        case SessionEnded(terminal) =>
          var ok, left, rest := SessionEnded(terminal);
          d := WentAway(ok, left, rest);
        case Settle(g, outcome) =>
          var ok, rest := Settle(g, outcome);
          d := Ended(ok, rest);
        case Renew(g) =>
          var ok, read, opening, rest := Renew(g);
          d := Followed(ok, read, opening, rest);
        case Pause(g) =>
          var ok := Pause(g);
          d := Ended(ok, NotArmed);
        case Stop =>
          var ok := Stop();
          d := Stopped(ok);
      }
    }

    method Take(at: nat) returns (command: Command)
      requires Valid() && hand.Free? && at < |world.inFlight|
      modifies this
      ensures Valid() && Leads(old(Now()), Now()) && Now() == After(old(Now()), Deliver(at))
      ensures command == old(world.inFlight[at])
      ensures command.SessionEnded? ==> command.terminal in world.ended
      ensures command.Settle? ==> command.outcome == Finished
    {
      ghost var s := Now();
      ReachableInvariant(s);
      command := world.inFlight[at];
      world := world.(inFlight := Without(world.inFlight, at));
      hand := if command.Settle? || command.Pause? then Due(command.generation) else Free;
      NextIsReachable(s, Deliver(at));
    }

    /** `run`: items marked as running by a process that is gone wait again; then come the commands, one after another. */
    method Run(rounds: nat) returns (recovered: bool, ghost start: State)
      requires Valid() && hand.Ending? && active == []
      modifies this
      ensures Valid() && Leads(old(Now()), start) && Leads(start, Now()) && hand.Free?
      ensures if recovered then WaitsAgain(old(world), start.world) && RunningItems(start.world) == {} else Faulted(old(Now()), start)
    {
      recovered := RequeueRunning(false);
      start := Now();
      LeadsToItself(start);
      for k := 0 to rounds
        invariant Valid() && hand.Free? && Leads(start, Now())
      {
        ghost var s := Now();
        Interfere();
        LeadsOn(start, s, Now());
        var at: nat := *;
        if at < |world.inFlight| {
          ghost var s' := Now();
          var d := Handle(at);
          LeadsOn(start, s', Now());
        }
      }
    }
  }
}
