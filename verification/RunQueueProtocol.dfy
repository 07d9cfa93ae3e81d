/**
 The worker as a transition system. A state is what the worker remembers together with the
 world it decides over; a move is one thing the worker does between two waits, or one change from
 outside. `Invariant` holds in every state of every run, in the middle of a decision too.
 */
module RunQueueProtocol {
  import opened Options
  import opened Sequences
  import opened RunQueueWorld
  import UsageCeiling

  /** A session in hand: the item and task it works, and the terminal it runs in. */
  datatype Active = Active(generation: nat, item: Id, task: Id, terminal: Id, settledSteps: nat, waiting: bool, closing: bool)

  /**
   What the worker still owes in the middle of a decision: whose turn it is under the settings it has read, what
   becomes of the item whose turn it is, once the usage is found `clear` of the ceiling, the end of
   the session whose `Settle` or `Pause` it was given, the result of a renewal, or the state of
   the items it has just taken up or let go. `Free` between two commands.
   */
  datatype Hand =
    | Free
    | Surveying(settings: Settings)
    | Choosing(item: Id, task: Id, settings: Settings, clear: bool)
    | Due(generation: nat)
    | Renewing(generation: nat)
    | Starting(item: Id)
    | Ending(items: set<Id>)

  datatype State = State(active: seq<Active>, parked: set<Id>, generation: nat, hand: Hand, world: World)

  ghost function ActiveItems(active: seq<Active>): set<Id> {
    set k | 0 <= k < |active| :: active[k].item
  }

  /** The entry of `g`, if the session of that generation is in hand. */
  ghost predicate Holds(active: seq<Active>, g: nat) {
    exists k :: 0 <= k < |active| && active[k].generation == g
  }

  ghost predicate HasTerminal(active: seq<Active>, t: Id) {
    exists k :: 0 <= k < |active| && active[k].terminal == t
  }

  // ------------------------------------------------------------------ moves

  /** Why a session is taken out of hand: its grace is over, its task was deleted, its terminal went away, or no terminal could follow it. */
  datatype Why = Settled | TaskDeleted | TerminalGone | RenewalFailed(closed: bool)

  datatype Move =
    | Outside(world: World)                           // the console, a terminal or the clock
    | Deliver(at: nat)                                // a command in flight reaches the worker
    | Stale                                           // it is for a session no longer in hand
    | SetQueue(queue: QueueState)                     // resumed, finished, stopped as blocked, or held
    | Write(item: Id, outcome: ItemState, ok: bool)   // one item's state is written
    | Requeued(ok: bool, disarm: bool)                // every running item waits again
    | Survey                                          // the queue is armed and a place is free
    | Choose(item: Id)                                // its turn has come
    | CheckUsage                                      // the usage reading against the ceiling
    | LetBe                                           // it is left waiting after all
    | Park                                            // it is passed over from now on
    | Unpark
    | Start(terminal: Id, settledSteps: nat)          // a session is in hand on it
    | Note(at: nat, settledSteps: nat, waiting: bool) // claimed steps, a permission prompt
    | Decide(at: nat, command: Command)               // close the session after the grace
    | AskRenew(at: nat)
    | BeginRenew(at: nat)
    | Renewed(at: nat, terminal: Id)
    | Drop(at: nat, why: Why)
    | LetAllGo                                        // stopped from the console
    | Close(terminal: Id)                             // the worker closes a terminal it let go
    | Fault                                           // an answer fails to come

  /** When the worker, or the world around it, can make the move. */
  ghost predicate Enabled(s: State, m: Move) {
    var w := s.world;
    match m
    case Outside(w') => ConsoleMay(w, w')
    case Deliver(at) => s.hand.Free? && at < |w.inFlight|
    case Stale => s.hand.Due? && !Holds(s.active, s.hand.generation)
    case SetQueue(queue) =>
      && s.hand.Free?
      && (queue.Armed? ==> w.queue.Scheduled? || w.queue.Holding?)
      && (queue.Holding? ==> !w.queue.Idle?)
      && !queue.Scheduled?
      && (!queue.Armed? ==> s.active == [])
    case Write(item, outcome, ok) => MayWrite(s, item, outcome)
    case Requeued(ok, disarm) => s.hand.Ending? && s.active == []
    case Survey => s.hand.Free? && w.queue.Armed? && |s.active| < Places(w.settings.parallel)
    case Choose(item) => s.hand.Surveying? && FirstReady(w, s.parked, item)
    case CheckUsage => s.hand.Choosing?
    case LetBe => s.hand.Surveying? || s.hand.Choosing?
    case Park => s.hand.Choosing? && s.hand.clear
    case Unpark => s.active == []
    case Start(terminal, settledSteps) => s.hand.Choosing? && s.hand.clear && terminal !in w.issued
    case Note(at, settledSteps, waiting) => s.hand.Free? && at < |s.active|
    case Decide(at, command) =>
      && s.hand.Free? && at < |s.active| && !s.active[at].closing && command.Ends(s.active[at].generation)
      && (command.Settle? ==> command.outcome == Finished)
    case AskRenew(at) => s.hand.Free? && at < |s.active| && !s.active[at].closing
    case BeginRenew(at) => s.hand.Free? && at < |s.active| && !s.active[at].closing
    case Renewed(at, terminal) =>
      at < |s.active| && s.hand == Renewing(s.active[at].generation) && terminal !in w.issued
    case Drop(at, why) =>
      at < |s.active|
      && (match why
          case Settled => s.hand == Due(s.active[at].generation)
          case TaskDeleted => s.hand.Free? && !s.active[at].closing && s.active[at].task in w.deleted
          case TerminalGone => s.hand.Free? && !s.active[at].closing && s.active[at].terminal in w.ended
          case RenewalFailed(_) => s.hand == Renewing(s.active[at].generation))
    case LetAllGo => s.hand.Free?
    case Close(terminal) => terminal in w.issued && terminal !in w.lost && !HasTerminal(s.active, terminal)
    case Fault => true
  }

  /**
   An item's state is written when the worker has just dismissed it, taken it up or let it go, and, with
   nothing owed, to tell a prompt on one in hand.
   */
  ghost predicate MayWrite(s: State, item: Id, outcome: ItemState) {
    match s.hand
    case Choosing(chosen, _, _, clear) => clear && item == chosen && (outcome == Failed || outcome == Skipped || (outcome == Queued && item in s.parked))
    case Starting(taken) => item == taken && outcome == Running
    case Ending(items) => items == {item} && outcome != Running
    case Free => outcome == Running && item in ActiveItems(s.active)
    case _ => false
  }

  ghost function After(s: State, m: Move): State
    requires Enabled(s, m)
  {
    var w := s.world;
    match m
    case Outside(w') => s.(world := w')
    case Deliver(at) =>
      var c := w.inFlight[at];
      s.(world := w.(inFlight := Without(w.inFlight, at)), hand := if c.Settle? || c.Pause? then Due(c.generation) else Free)
    case Stale => s.(hand := Free)
    case SetQueue(queue) => s.(world := w.(queue := queue))
    case Write(item, outcome, ok) => s.(hand := Free, world := Mark(w, item, outcome, ok))
    case Requeued(ok, disarm) =>
      s.(hand := Free, world := Requeue(w, ok).(queue := if ok && disarm then Idle else w.queue))
    case Survey => s.(hand := Surveying(w.settings))
    case Choose(item) => s.(hand := Choosing(item, w.items[item].task, s.hand.settings, false))
    case CheckUsage =>
      s.(hand := s.hand.(clear := !UsageCeiling.Holds(Some(w.usage), s.hand.settings.ceiling, s.hand.settings.model)))
    case LetBe => s.(hand := Free)
    case Park => s.(parked := s.parked + {s.hand.item})
    case Unpark => s.(parked := {})
    case Start(terminal, settledSteps) =>
      s.(active := s.active + [Active(s.generation + 1, s.hand.item, s.hand.task, terminal, settledSteps, false, false)],
         generation := s.generation + 1, hand := Starting(s.hand.item), world := w.(issued := w.issued + {terminal}))
    case Note(at, settledSteps, waiting) =>
      s.(active := s.active[at := s.active[at].(settledSteps := settledSteps, waiting := waiting)])
    case Decide(at, command) =>
      s.(active := s.active[at := s.active[at].(closing := true)], world := w.(inFlight := w.inFlight + [command]))
    case AskRenew(at) => s.(world := w.(inFlight := w.inFlight + [Command.Renew(s.active[at].generation)]))
    case BeginRenew(at) =>
      s.(active := s.active[at := s.active[at].(closing := true)], hand := Renewing(s.active[at].generation))
    case Renewed(at, terminal) =>
      var previous := s.active[at].terminal;
      s.(active := s.active[at := s.active[at].(terminal := terminal, closing := false)], hand := Free,
         world := w.(issued := w.issued + {terminal}, closed := w.closed + {previous}, ended := w.ended + {previous}))
    case Drop(at, why) =>
      var a := s.active[at];
      var shut := if why.RenewalFailed? && why.closed then {a.terminal} else {};
      s.(active := Without(s.active, at), hand := if why.TaskDeleted? then Free else Ending({a.item}),
         world := w.(closed := w.closed + shut, ended := w.ended + shut,
                     lost := if why.TerminalGone? then w.lost + {a.terminal} else w.lost))
    case LetAllGo => s.(active := [], hand := Ending(ActiveItems(s.active)))
    case Close(terminal) => s.(world := w.(closed := w.closed + {terminal}, ended := w.ended + {terminal}))
    case Fault => s.(world := w.(faults := w.faults + 1))
  }

  // ------------------------------------------------------------------ invariants

  /** What the world itself keeps, however writes and reads go. */
  ghost predicate SoundWorld(w: World) {
    && w.items.Keys <= w.known && w.unlisted <= w.known && w.unlisted !! w.items.Keys
    && InOrder(w)
    && (forall i :: i in w.items ==> w.items[i].task !in w.deleted)
    && w.closed <= w.issued && w.lost <= w.issued
    && w.closed <= w.ended && w.lost <= w.ended
    && w.closed !! w.lost
    && Places(w.settings.parallel) <= w.widest
    && (forall k :: 0 <= k < |w.inFlight| && w.inFlight[k].SessionEnded? ==> w.inFlight[k].terminal in w.ended)
  }

  ghost function DueFor(hand: Hand, g: nat): nat {
    if hand == Due(g) then 1 else 0
  }

  /** Generations rise along `active`, and nothing in flight names one not yet given. Only a finished item is settled after the grace. */
  ghost predicate SoundGenerations(s: State) {
    && (forall k :: 0 <= k < |s.active| ==> s.active[k].generation <= s.generation)
    && (forall j, k :: 0 <= j < k < |s.active| ==> s.active[j].generation < s.active[k].generation)
    && (forall k :: 0 <= k < |s.world.inFlight| && s.world.inFlight[k].Delayed() ==> s.world.inFlight[k].generation <= s.generation)
    && (forall k :: 0 <= k < |s.world.inFlight| && s.world.inFlight[k].Settle? ==> s.world.inFlight[k].outcome == Finished)
    && (s.hand.Due? ==> s.hand.generation <= s.generation)
  }

  /** An entry is closing exactly when one command that ends it is in flight, or just delivered, or it is being renewed. */
  ghost predicate OneEndEach(s: State) {
    forall k {:trigger s.active[k]} :: 0 <= k < |s.active| ==>
      var a := s.active[k];
      Ends(s.world.inFlight, a.generation) + DueFor(s.hand, a.generation)
      == if a.closing && s.hand != Renewing(a.generation) then 1 else 0
  }

  ghost predicate SoundTerminals(s: State) {
    && (forall k :: 0 <= k < |s.active| ==> s.active[k].terminal in s.world.issued - s.world.closed - s.world.lost)
    && (forall j, k :: 0 <= j < k < |s.active| ==> s.active[j].terminal != s.active[k].terminal)
  }

  /** Holds on every path, failed writes included. */
  ghost predicate Core(s: State) {
    && SoundWorld(s.world) && SoundGenerations(s) && OneEndEach(s) && SoundTerminals(s)
    && SoundPlaces(s)
  }

  /** A place is about to be filled. */
  ghost predicate Filling(hand: Hand) {
    hand.Surveying? || hand.Choosing?
  }

  /** Sessions run, and are chosen, on an armed queue only, and there is a place for each. */
  ghost predicate SoundPlaces(s: State) {
    && |s.active| + (if Filling(s.hand) then 1 else 0) <= s.world.widest
    && (s.active != [] || Filling(s.hand) ==> s.world.queue.Armed?)
  }

  /** The entry's item is listed as running, or is about to be, or is gone for a reason the console gave. */
  ghost predicate Listed(s: State, a: Active) {
    && a.item in s.world.known
    && (a.item in s.world.items ==>
          && s.world.items[a.item].task == a.task
          && (s.world.items[a.item].state == Running
              || (s.hand == Starting(a.item) && s.world.items[a.item].state == Queued)))
    && (a.item !in s.world.items ==> a.task in s.world.deleted || a.item in s.world.unlisted)
  }

  ghost predicate RunningInHand(s: State) {
    forall i :: i in s.world.items && s.world.items[i].state == Running ==> InHand(s, i)
  }

  ghost predicate InHand(s: State, i: Id) {
    i in ActiveItems(s.active) || (s.hand.Ending? && i in s.hand.items)
  }

  /** Holds as long as every write of an item's state went through. */
  ghost predicate Tied(s: State) {
    && RunningInHand(s)
    && (forall k :: 0 <= k < |s.active| ==> Listed(s, s.active[k]))
    && (forall j, k :: 0 <= j < k < |s.active| ==> s.active[j].item != s.active[k].item)
    && SoundHand(s)
    && OneEach(s.world.items)
  }

  /**
   The item whose turn it is waits and is nobody's, unless the console got to it first; what was just taken up is in
   hand; and what was just let go is not, though still listed as running.
   */
  ghost predicate SoundHand(s: State) {
    match s.hand
    case Choosing(item, task, _, _) =>
      && item in s.world.known && item !in ActiveItems(s.active)
      && (item in s.world.items ==> s.world.items[item] == Item(task, Queued))
      && (item !in s.world.items ==> task in s.world.deleted || item in s.world.unlisted)
    case Starting(item) => item in ActiveItems(s.active)
    case Ending(items) =>
      && items !! ActiveItems(s.active) && items <= s.world.known
      && (forall i :: i in items && i in s.world.items ==> s.world.items[i].state == Running)
    case _ => true
  }

  ghost predicate Invariant(s: State) {
    Core(s) && (s.world.intact ==> Tied(s))
  }

  /** A worker just made, over a queue in which the last process may have left items marked as running. */
  ghost predicate Initial(s: State) {
    var w := s.world;
    && s.active == [] && s.parked == {} && s.generation == 0
    && s.hand == Ending(set i | i in w.items && w.items[i].state == Running)
    && w.items.Keys <= w.known && w.unlisted == {} && InOrder(w)
    && (forall i :: i in w.items ==> w.items[i].task !in w.deleted)
    && OneEach(w.items)
    && w.issued == {} && w.closed == {} && w.lost == {}
    && w.widest == Places(w.settings.parallel)
    && (forall k :: 0 <= k < |w.inFlight| ==> FromOutside(w.inFlight[k], w.ended))
  }

  // ------------------------------------------------------------------ every move keeps them

  lemma InitialInvariant(s: State)
    requires Initial(s)
    ensures Invariant(s)
  {
  }

  lemma OutsideKeepsCore(s: State, w': World)
    requires Core(s) && ConsoleMay(s.world, w')
    ensures Core(s.(world := w'))
  {
    var q, q' := s.world.inFlight, w'.inFlight;
    assert forall k :: 0 <= k < |q| ==> q'[k] == q'[..|q|][k] == q[k];
    forall k | 0 <= k < |s.active| {
      SendingNoEnds(q, q', s.active[k].generation);
    }
  }

  lemma SendingNoEnds(q: seq<Command>, q': seq<Command>, g: nat)
    requires |q| <= |q'| && q'[..|q|] == q && forall k :: |q| <= k < |q'| ==> !q'[k].Ends(g)
    ensures Ends(q', g) == Ends(q, g)
  {
    var sent := q'[|q|..];
    assert q' == q + sent;
    EndsOfConcat(q, sent, g);
    EndsOfNone(sent, g);
  }

  lemma DeliverKeepsCore(s: State, at: nat)
    requires Core(s) && Enabled(s, Deliver(at))
    ensures Core(After(s, Deliver(at)))
  {
    forall k | 0 <= k < |s.active| {
      EndsOfWithout(s.world.inFlight, at, s.active[k].generation);
    }
  }

  lemma StartKeepsCore(s: State, terminal: Id, settledSteps: nat)
    requires Core(s) && Enabled(s, Start(terminal, settledSteps))
    ensures Core(After(s, Start(terminal, settledSteps)))
  {
    EndsOfNone(s.world.inFlight, s.generation + 1);
  }

  lemma DecideKeepsCore(s: State, at: nat, command: Command)
    requires Core(s) && Enabled(s, Decide(at, command))
    ensures Core(After(s, Decide(at, command)))
  {
    forall k | 0 <= k < |s.active|
      ensures Ends(s.world.inFlight + [command], s.active[k].generation)
              == Ends(s.world.inFlight, s.active[k].generation) + if k == at then 1 else 0
    {
      EndsOfConcat(s.world.inFlight, [command], s.active[k].generation);
      assert [command][1..] == [];
    }
  }

  lemma AskRenewKeepsCore(s: State, at: nat)
    requires Core(s) && Enabled(s, AskRenew(at))
    ensures Core(After(s, AskRenew(at)))
  {
    var c := Command.Renew(s.active[at].generation);
    forall k | 0 <= k < |s.active|
      ensures Ends(s.world.inFlight + [c], s.active[k].generation) == Ends(s.world.inFlight, s.active[k].generation)
    {
      EndsOfConcat(s.world.inFlight, [c], s.active[k].generation);
      EndsOfNone([c], s.active[k].generation);
    }
  }

  lemma BeginRenewKeepsCore(s: State, at: nat)
    requires Core(s) && Enabled(s, BeginRenew(at))
    ensures Core(After(s, BeginRenew(at)))
  {
  }

  lemma RenewedKeepsCore(s: State, at: nat, terminal: Id)
    requires Core(s) && Enabled(s, Renewed(at, terminal))
    ensures Core(After(s, Renewed(at, terminal)))
  {
  }

  lemma DropKeepsEntries(s: State, at: nat, why: Why)
    requires SoundGenerations(s) && OneEndEach(s) && Enabled(s, Drop(at, why))
    ensures SoundGenerations(After(s, Drop(at, why))) && OneEndEach(After(s, Drop(at, why)))
  {
  }

  lemma DropKeepsTerminals(s: State, at: nat, why: Why)
    requires SoundWorld(s.world) && SoundTerminals(s) && Enabled(s, Drop(at, why))
    ensures SoundWorld(After(s, Drop(at, why)).world) && SoundTerminals(After(s, Drop(at, why)))
  {
  }

  lemma CloseKeepsCore(s: State, terminal: Id)
    requires Core(s) && Enabled(s, Close(terminal))
    ensures Core(After(s, Close(terminal)))
  {
  }

  /** The moves that leave every entry and every command in flight as they are. */
  lemma QuietKeepsCore(s: State, m: Move)
    requires Core(s) && Enabled(s, m)
    requires m.Stale? || m.SetQueue? || m.Park? || m.Unpark? || m.LetAllGo? || m.Fault?
    ensures Core(After(s, m))
  {
  }

  lemma FillingKeepsCore(s: State, m: Move)
    requires Core(s) && Enabled(s, m)
    requires m.Survey? || m.Choose? || m.CheckUsage? || m.LetBe?
    ensures Core(After(s, m))
  {
  }

  lemma WriteKeepsCore(s: State, item: Id, outcome: ItemState, ok: bool)
    requires Core(s) && Enabled(s, Write(item, outcome, ok))
    ensures Core(After(s, Write(item, outcome, ok)))
  {
  }

  lemma RequeuedKeepsCore(s: State, ok: bool, disarm: bool)
    requires Core(s) && Enabled(s, Requeued(ok, disarm))
    ensures Core(After(s, Requeued(ok, disarm)))
  {
  }

  lemma NoteKeepsCore(s: State, at: nat, settledSteps: nat, waiting: bool)
    requires Core(s) && Enabled(s, Note(at, settledSteps, waiting))
    ensures Core(After(s, Note(at, settledSteps, waiting)))
  {
  }

  lemma MoveKeepsCore(s: State, m: Move)
    requires Core(s) && Enabled(s, m)
    ensures Core(After(s, m))
  {
    if OnAnEntry(m) {
      EntryMoveKeepsCore(s, m);
    } else if OnTheWorld(m) {
      WorldMoveKeepsCore(s, m);
    } else if m.Survey? || m.Choose? || m.CheckUsage? || m.LetBe? {
      FillingKeepsCore(s, m);
    } else {
      QuietKeepsCore(s, m);
    }
  }

  ghost predicate OnTheWorld(m: Move) {
    m.Outside? || m.Deliver? || m.Write? || m.Requeued? || m.Close?
  }

  lemma WorldMoveKeepsCore(s: State, m: Move)
    requires Core(s) && Enabled(s, m) && OnTheWorld(m)
    ensures Core(After(s, m))
  {
    match m {
      case Outside(w') => OutsideKeepsCore(s, w');
      case Deliver(at) => DeliverKeepsCore(s, at);
      case Write(item, outcome, ok) => WriteKeepsCore(s, item, outcome, ok);
      case Requeued(ok, disarm) => RequeuedKeepsCore(s, ok, disarm);
      case Close(terminal) => CloseKeepsCore(s, terminal);
    }
  }

  ghost predicate OnAnEntry(m: Move) {
    m.Start? || m.Note? || m.Decide? || m.AskRenew? || m.BeginRenew? || m.Renewed? || m.Drop?
  }

  lemma EntryMoveKeepsCore(s: State, m: Move)
    requires Core(s) && Enabled(s, m) && OnAnEntry(m)
    ensures Core(After(s, m))
  {
    match m {
      case Start(terminal, settledSteps) => StartKeepsCore(s, terminal, settledSteps);
      case Note(at, settledSteps, waiting) => NoteKeepsCore(s, at, settledSteps, waiting);
      case Decide(at, command) => DecideKeepsCore(s, at, command);
      case AskRenew(at) => AskRenewKeepsCore(s, at);
      case BeginRenew(at) => BeginRenewKeepsCore(s, at);
      case Renewed(at, terminal) => RenewedKeepsCore(s, at, terminal);
      case Drop(at, why) => DropKeepsEntries(s, at, why); DropKeepsTerminals(s, at, why);
    }
  }

  // The same for the tie between running items and sessions in hand, as long as the writes go through.

  lemma OutsideKeepsTied(s: State, w': World)
    requires SoundWorld(s.world) && Tied(s) && ConsoleMay(s.world, w')
    ensures Tied(s.(world := w'))
  {
    OutsideKeepsOneEach(s.world, w');
    forall k | 0 <= k < |s.active| ensures Listed(s.(world := w'), s.active[k]) {
      OutsideKeepsListed(s, w', s.active[k]);
    }
    OutsideKeepsHand(s, w');
    OutsideKeepsRunning(s, w');
  }

  lemma OutsideKeepsRunning(s: State, w': World)
    requires RunningInHand(s) && ConsoleMay(s.world, w')
    ensures RunningInHand(s.(world := w'))
  {
  }

  lemma OutsideKeepsHand(s: State, w': World)
    requires SoundWorld(s.world) && SoundHand(s) && ConsoleMay(s.world, w')
    ensures SoundHand(s.(world := w'))
  {
  }

  lemma OutsideKeepsListed(s: State, w': World, a: Active)
    requires SoundWorld(s.world) && Listed(s, a) && ConsoleMay(s.world, w')
    ensures Listed(s.(world := w'), a)
  {
  }

  lemma OutsideKeepsOneEach(w: World, w': World)
    requires SoundWorld(w) && OneEach(w.items) && ConsoleMay(w, w')
    ensures OneEach(w'.items)
  {
  }

  lemma WriteKeepsTied(s: State, item: Id, outcome: ItemState)
    requires Tied(s) && s.world.intact && Enabled(s, Write(item, outcome, true))
    ensures Tied(After(s, Write(item, outcome, true)))
  {
  }

  lemma RequeuedKeepsTied(s: State, disarm: bool)
    requires Tied(s) && Enabled(s, Requeued(true, disarm))
    ensures Tied(After(s, Requeued(true, disarm)))
  {
  }

  lemma ItemsOfMore(active: seq<Active>, a: Active)
    ensures ActiveItems(active + [a]) == ActiveItems(active) + {a.item}
  {
    var more := active + [a];
    assert more[|active|] == a;
    assert forall k :: 0 <= k < |active| ==> more[k] == active[k];
    forall i | i in ActiveItems(active) + {a.item} ensures i in ActiveItems(more) {
      if i in ActiveItems(active) {
        var k :| 0 <= k < |active| && active[k].item == i;
        assert more[k].item == i;
      }
    }
  }

  lemma ItemsOfEdited(active: seq<Active>, at: nat, a: Active)
    requires at < |active| && a.item == active[at].item
    ensures ActiveItems(active[at := a]) == ActiveItems(active)
  {
    var edited := active[at := a];
    assert forall k :: 0 <= k < |active| ==> edited[k].item == active[k].item;
  }

  lemma ItemsOfWithout(active: seq<Active>, at: nat)
    requires at < |active|
    requires forall j, k :: 0 <= j < k < |active| ==> active[j].item != active[k].item
    ensures ActiveItems(Without(active, at)) == ActiveItems(active) - {active[at].item}
  {
    var fewer := Without(active, at);
    forall i | i in ActiveItems(active) - {active[at].item} ensures i in ActiveItems(fewer) {
      var k :| 0 <= k < |active| && active[k].item == i;
      assert fewer[if k < at then k else k - 1].item == i;
    }
    forall i | i in ActiveItems(fewer) ensures i in ActiveItems(active) - {active[at].item} {
      var k :| 0 <= k < |fewer| && fewer[k].item == i;
      assert active[if k < at then k else k + 1].item == i;
    }
  }

  lemma StartKeepsTied(s: State, terminal: Id, settledSteps: nat)
    requires Tied(s) && Enabled(s, Start(terminal, settledSteps))
    ensures Tied(After(s, Start(terminal, settledSteps)))
  {
    ItemsOfMore(s.active, Active(s.generation + 1, s.hand.item, s.hand.task, terminal, settledSteps, false, false));
  }

  lemma ChooseKeepsTied(s: State, item: Id)
    requires SoundWorld(s.world) && Tied(s) && Enabled(s, Choose(item))
    ensures Tied(After(s, Choose(item)))
  {
  }

  lemma DropKeepsTied(s: State, at: nat, why: Why)
    requires SoundWorld(s.world) && Tied(s) && Enabled(s, Drop(at, why))
    ensures Tied(After(s, Drop(at, why)))
  {
    ItemsOfWithout(s.active, at);
  }

  lemma LetAllGoKeepsTied(s: State)
    requires Tied(s) && Enabled(s, LetAllGo)
    ensures Tied(After(s, LetAllGo))
  {
  }

  lemma EntryEditKeepsTied(s: State, m: Move)
    requires Tied(s) && Enabled(s, m)
    requires m.Note? || m.Decide? || m.BeginRenew? || m.Renewed?
    ensures Tied(After(s, m))
  {
    ItemsOfEdited(s.active, m.at, After(s, m).active[m.at]);
  }

  /** Nothing the tie speaks of differs, and no hand is left owing an item. */
  lemma TieCarriesOver(s: State, s': State)
    requires Tied(s) && s'.active == s.active
    requires s'.world.items == s.world.items && s'.world.known == s.world.known
    requires s'.world.deleted == s.world.deleted && s'.world.unlisted == s.world.unlisted
    requires s'.hand == s.hand || (!s.hand.Starting? && !s.hand.Ending? && (s'.hand.Free? || s'.hand.Due? || s'.hand.Surveying?))
             || (s.hand.Choosing? && s'.hand.Choosing? && s'.hand.item == s.hand.item && s'.hand.task == s.hand.task)
    ensures Tied(s')
  {
    forall k | 0 <= k < |s'.active| ensures Listed(s', s'.active[k]) {
      assert Listed(s, s.active[k]);
    }
  }

  lemma QuietKeepsTied(s: State, m: Move)
    requires Tied(s) && Enabled(s, m)
    requires m.Deliver? || m.Stale? || m.SetQueue? || m.Survey? || m.CheckUsage? || m.LetBe? || m.Park? || m.Unpark? || m.AskRenew?
             || m.Close? || m.Fault?
    ensures Tied(After(s, m))
  {
    TieCarriesOver(s, After(s, m));
  }

  lemma ItemMoveKeepsTied(s: State, m: Move)
    requires SoundWorld(s.world) && Tied(s) && s.world.intact && Enabled(s, m) && OnItems(m)
    requires After(s, m).world.intact
    ensures Tied(After(s, m))
  {
    match m {
      case Outside(w') => OutsideKeepsTied(s, w');
      case Write(item, outcome, ok) => WriteKeepsTied(s, item, outcome);
      case Requeued(ok, disarm) => RequeuedKeepsTied(s, disarm);
      case Start(terminal, settledSteps) => StartKeepsTied(s, terminal, settledSteps);
      case Drop(at, why) => DropKeepsTied(s, at, why);
      case LetAllGo => LetAllGoKeepsTied(s);
      case Choose(item) => ChooseKeepsTied(s, item);
    }
  }

  ghost predicate OnItems(m: Move) {
    m.Outside? || m.Write? || m.Requeued? || m.Start? || m.Drop? || m.LetAllGo? || m.Choose?
  }

  lemma MoveKeepsTied(s: State, m: Move)
    requires SoundWorld(s.world) && Tied(s) && s.world.intact && Enabled(s, m)
    requires After(s, m).world.intact
    ensures Tied(After(s, m))
  {
    if OnItems(m) {
      ItemMoveKeepsTied(s, m);
    } else if m.Note? || m.Decide? || m.BeginRenew? || m.Renewed? {
      EntryEditKeepsTied(s, m);
    } else {
      QuietKeepsTied(s, m);
    }
  }

  lemma MoveKeepsInvariant(s: State, m: Move)
    requires Invariant(s) && Enabled(s, m)
    ensures Invariant(After(s, m))
  {
    MoveKeepsCore(s, m);
    if After(s, m).world.intact {
      FailuresStay(s, m);
      MoveKeepsTied(s, m);
    }
  }

  lemma FailuresStay(s: State, m: Move)
    requires Enabled(s, m) && After(s, m).world.intact
    ensures s.world.intact
  {
  }
}
