/**
 What the run queue's worker decides over but does not own: the queue's row and items, the tasks, the
 terminals, and the commands in flight. The console changes it at any time, also while a
 decision is waiting for an answer; `ConsoleMay` says how.
 */
module RunQueueWorld {
  import opened Numbers
  import opened Options
  import opened Sequences
  import opened Sets
  import UsageCeiling

  type Id = nat

  datatype ItemState = Queued | Running | Finished | Skipped | Failed {
    predicate Settled() { Finished? || Skipped? || Failed? }
  }

  datatype QueueState = Idle | Scheduled | Armed | Holding

  datatype Item = Item(task: Id, state: ItemState)

  datatype Settings = Settings(parallel: int, ceiling: Option<int>, model: Option<string>)

  datatype Command =
    | Tick
    | Review(task: Id)
    | SessionEnded(terminal: Id)
    | Settle(generation: nat, outcome: ItemState)
    | Renew(generation: nat)
    | Pause(generation: nat)
    | Stop
  {
    /** A delayed decision that takes the session of `generation` out of hand. */
    predicate Ends(g: nat) { (Settle? || Pause?) && generation == g }

    predicate Delayed() { Settle? || Renew? || Pause? }
  }

  /**
   `order` lists the items as the queue shows them, `known` holds every item id ever listed and `unlisted`
   those the console took off; `deleted` the deleted tasks; `waiting` the tasks with a dependency not accepted yet. `issued` holds every terminal
   ever handed to the worker, `closed` those it closed or renewed itself, `ended` those that
   are no longer live, and `lost` those it gave up because they went away. `usage` is the reading of the
   usage windows as it stands. `intact` says that no write of an item's state has failed, `faults`
   counts the answers that failed to come, `widest` is the largest number of places the
   settings ever gave, and `arrivals` how many items the console still adds.
   */
  datatype World = World(
    queue: QueueState,
    settings: Settings,
    items: map<Id, Item>,
    order: seq<Id>,
    known: set<Id>,
    unlisted: set<Id>,
    deleted: set<Id>,
    waiting: set<Id>,
    issued: set<Id>,
    closed: set<Id>,
    ended: set<Id>,
    lost: set<Id>,
    inFlight: seq<Command>,
    usage: UsageCeiling.UsageView,
    intact: bool,
    faults: nat,
    widest: nat,
    arrivals: nat)

  /** Waiting, not passed over, and with nothing it depends on still open. */
  predicate IsReady(w: World, parked: set<Id>, i: Id) {
    i in w.items && w.items[i].state == Queued && i !in parked && w.items[i].task !in w.waiting
  }

  /** The first of the order that is ready. */
  ghost predicate FirstReady(w: World, parked: set<Id>, item: Id) {
    exists k :: 0 <= k < |w.order| && w.order[k] == item && IsReady(w, parked, item)
                && forall j :: 0 <= j < k ==> !IsReady(w, parked, w.order[j])
  }

  /** The places a setting gives: never less than one. */
  function Places(parallel: int): (n: nat)
    ensures 1 <= n
  {
    if parallel < 1 then 1 else parallel
  }

  /** No task is listed twice among the items the queue is not done with. */
  predicate OneEach(items: map<Id, Item>) {
    forall i, j | i in items && j in items && i != j && !items[i].state.Settled() && !items[j].state.Settled() ::
      items[i].task != items[j].task
  }

  /** The order lists the items there are, and no others. */
  predicate InOrder(w: World) {
    (forall i | i in w.items :: i in w.order) && forall k | 0 <= k < |w.order| :: w.order[k] in w.items
  }

  predicate FromOutside(c: Command, ended: set<Id>) {
    c.Tick? || c.Review? || c.Stop? || (c.SessionEnded? && c.terminal in ended)
  }

  /**
   Anything outside the worker may turn `w` into `w'`: items are added (each on a task with no unsettled
   item), moved about, taken off unless running, or deleted with their task; an idle or
   scheduled queue is armed; settings, dependencies and the usage reading change; terminals end; and ticks, task moves, stops and
   ends of terminals are sent.
   */
  predicate ConsoleMay(w: World, w': World) {
    && (w'.queue == w.queue || ((w.queue.Idle? || w.queue.Scheduled?) && (w'.queue.Scheduled? || w'.queue.Armed?)))
    && w'.widest == Max(w.widest, Places(w'.settings.parallel))
    && w.known + w'.items.Keys <= w'.known
    && w.unlisted <= w'.unlisted <= w'.known && w'.unlisted !! w'.items.Keys
    && w.deleted <= w'.deleted
    && w.ended <= w'.ended
    && w' == w.(queue := w'.queue, settings := w'.settings, items := w'.items, order := w'.order, known := w'.known, unlisted := w'.unlisted,
                deleted := w'.deleted, waiting := w'.waiting, ended := w'.ended, inFlight := w'.inFlight,
                usage := w'.usage, widest := w'.widest, arrivals := w'.arrivals)
    && InOrder(w')
    && (forall i | i in w'.items :: w'.items[i].task !in w'.deleted)
    && (forall i | i in w'.items && i in w.items :: w'.items[i] == w.items[i])
    && (forall i | i in w'.items && i !in w.items :: i !in w.known && w'.items[i].state == Queued)
    && (forall i, j | i in w'.items && i !in w.items && j in w'.items && i != j && !w'.items[j].state.Settled() ::
          w'.items[i].task != w'.items[j].task)
    && (forall i | i in w.items && i !in w'.items ::
          w.items[i].task in w'.deleted || (w.items[i].state != Running && i in w'.unlisted))
    && |w'.items.Keys - w.items.Keys| + w'.arrivals <= w.arrivals
    && |w.inFlight| <= |w'.inFlight| && w'.inFlight[..|w.inFlight|] == w.inFlight
    && (forall k | |w.inFlight| <= k < |w'.inFlight| :: FromOutside(w'.inFlight[k], w'.ended))
  }

  /** `mark_item`: exactly that item, and nothing when it is no longer listed. */
  function Mark(w: World, item: Id, state: ItemState, ok: bool): World {
    if !ok then w.(intact := false)
    else if item in w.items then w.(items := w.items[item := w.items[item].(state := state)])
    else w
  }

  /** `stop` and `recover_after_restart`: every running item waits again. */
  function Requeue(w: World, ok: bool): World {
    if !ok then w.(intact := false)
    else w.(items := map i | i in w.items :: if w.items[i].state == Running then w.items[i].(state := Queued) else w.items[i])
  }

  // What the queue's own operations make of it, each in one transaction.

  function Resumed(w: World): World {
    if w.queue.Scheduled? || w.queue.Holding? then w.(queue := Armed) else w
  }

  /** An item that waits keeps the queue as it is. */
  function QueueFinished(w: World): World {
    if Startable(w, {}) == {} then w.(queue := Idle) else w
  }

  function Held(w: World): World {
    if w.queue.Idle? then w else w.(queue := Holding)
  }

  function Disarmed(w: World): World {
    w.(queue := Idle)
  }

  /** The items the worker may still take up. */
  function Startable(w: World, parked: set<Id>): set<Id> {
    set i | i in w.items && w.items[i].state == Queued && i !in parked
  }

  /** What `advance` uses up: the items it may take up, and those still to come. */
  function Backlog(w: World, parked: set<Id>): nat {
    |Startable(w, parked)| + w.arrivals
  }

  lemma ConsoleNeverGrowsTheBacklog(w: World, w': World, parked: set<Id>)
    requires ConsoleMay(w, w')
    ensures Backlog(w', parked) <= Backlog(w, parked)
  {
    var added := w'.items.Keys - w.items.Keys;
    assert Startable(w', parked) <= Startable(w, parked) + added;
    SubsetSize(Startable(w', parked), Startable(w, parked) + added);
    SubsetSize(Startable(w, parked) + added, Startable(w, parked) + added);
    assert |Startable(w, parked) + added| <= |Startable(w, parked)| + |added|;
  }

  /** How many commands in flight take the session of generation `g` out of hand. */
  function Ends(q: seq<Command>, g: nat): (n: nat) {
    if q == [] then 0 else (if q[0].Ends(g) then 1 else 0) + Ends(q[1..], g)
  }

  lemma {:induction false} EndsOfConcat(p: seq<Command>, q: seq<Command>, g: nat)
    ensures Ends(p + q, g) == Ends(p, g) + Ends(q, g)
  {
    if p == [] {
      assert p + q == q;
    } else {
      assert (p + q)[1..] == p[1..] + q;
      EndsOfConcat(p[1..], q, g);
    }
  }

  lemma {:induction false} EndsOfNone(q: seq<Command>, g: nat)
    requires forall k :: 0 <= k < |q| ==> !q[k].Ends(g)
    ensures Ends(q, g) == 0
  {
    if q != [] {
      assert forall k :: 0 <= k < |q[1..]| ==> q[1..][k] == q[k + 1];
      EndsOfNone(q[1..], g);
    }
  }

  lemma EndsOfWithout(q: seq<Command>, at: nat, g: nat)
    requires at < |q|
    ensures Ends(q, g) == Ends(Without(q, at), g) + (if q[at].Ends(g) then 1 else 0)
  {
    assert q == q[..at] + ([q[at]] + q[at + 1..]);
    EndsOfConcat(q[..at], [q[at]] + q[at + 1..], g);
    EndsOfConcat([q[at]], q[at + 1..], g);
    EndsOfConcat(q[..at], q[at + 1..], g);
    assert Ends([q[at]], g) == (if q[at].Ends(g) then 1 else 0) + Ends([q[at]][1..], g);
  }
}
